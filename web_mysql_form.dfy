/**
 * The task-creation form of the MySQL migration page: four steps
 * (connection, databases, tables, review), the connection test, the table
 * lists fetched per selected database, and the "select all" buttons and
 * checkboxes of steps 2 and 3.
 *
 * Every call to the migration API is an input: `Err(message)` stands for a
 * call that throws, `Ok(reply)` for its answer.
 */
module MysqlForm {
  import opened Wrappers
  import opened MysqlCompare

  /** The answer to a connection test. */
  datatype TestReply = TestReply(code: int, msg: string)

  /** The answer to a database list: its code, message and the names. */
  datatype ListReply = ListReply(code: int, msg: string, data: seq<string>)

  /**
   * The tables of one database as the form keeps them; `None` when the
   * answer was not an array, which the form shows as "获取表失败".
   */
  datatype TableGroup = TableGroup(db: string, tables: Option<seq<string>>)

  /** The table list of a database: thrown, or an answer that is an array of names or not. */
  type TableLister = string -> Result<Option<seq<string>>, string>

  /** The message a failed reply shows, or the fallback when it has none. */
  function MsgOr(msg: string, fallback: string): string
  {
    if msg == "" then fallback else msg
  }

  // ------------------------------------------------------------ the connection test

  /**
   * `handleTestConnection`: the source is tested, then the target, then the
   * source's databases are listed; the first failure gives the error shown,
   * otherwise the databases.
   */
  function ConnectionCheck(source: Result<TestReply, string>, target: Result<TestReply, string>,
                           dbs: Result<ListReply, string>): Result<seq<string>, string>
  {
    match source
    case Err(e) => Err("连接失败: " + e)
    case Ok(s) =>
      if s.code != 0 then Err("源库连接失败: " + MsgOr(s.msg, "连接失败"))
      else match target
        case Err(e) => Err("连接失败: " + e)
        case Ok(t) =>
          if t.code != 0 then Err("目标库连接失败: " + MsgOr(t.msg, "连接失败"))
          else match dbs
            case Err(e) => Err("连接失败: " + e)
            case Ok(d) =>
              if d.code != 0 then Err(MsgOr(d.msg, "获取数据库失败"))
              else Ok(d.data)
  }

  /**
   * The test succeeds exactly when both tests and the list answer code 0,
   * and then yields the listed databases. A failing source test decides
   * the outcome whatever the other calls would answer, and a target failure
   * is reported only after a good source test.
   */
  lemma ConnectionCheckCases(source: Result<TestReply, string>, target: Result<TestReply, string>,
                             dbs: Result<ListReply, string>)
    ensures var r := ConnectionCheck(source, target, dbs);
      (r.Ok? <==> source.Ok? && source.value.code == 0 && target.Ok? && target.value.code == 0 &&
                  dbs.Ok? && dbs.value.code == 0) &&
      (r.Ok? ==> r.value == dbs.value.data) &&
      (source.Ok? && source.value.code != 0 ==>
        r == Err("源库连接失败: " + MsgOr(source.value.msg, "连接失败"))) &&
      (source.Ok? && source.value.code == 0 && target.Ok? && target.value.code != 0 ==>
        r == Err("目标库连接失败: " + MsgOr(target.value.msg, "连接失败")))
  {
  }

  // ------------------------------------------------------------ the table lists

  /**
   * The loop of `handleListTables` and of step 2: one group per database, in
   * order; the first call that throws stops the loop with its message.
   */
  method FetchTables(dbs: seq<string>, listTables: TableLister) returns (r: Result<seq<TableGroup>, string>)
    ensures r.Ok? <==> forall i :: 0 <= i < |dbs| ==> listTables(dbs[i]).Ok?
    ensures r.Ok? ==>
      |r.value| == |dbs| &&
      forall i :: 0 <= i < |dbs| ==> r.value[i] == TableGroup(dbs[i], listTables(dbs[i]).value)
    ensures r.Err? ==>
      exists j :: 0 <= j < |dbs| && listTables(dbs[j]).Err? && r.error == listTables(dbs[j]).error &&
                  forall i :: 0 <= i < j ==> listTables(dbs[i]).Ok?
  {
    var allTables: seq<TableGroup> := [];
    var i := 0;
    while i < |dbs|
      invariant 0 <= i <= |dbs|
      invariant |allTables| == i
      invariant forall k :: 0 <= k < i ==> listTables(dbs[k]).Ok? && allTables[k] == TableGroup(dbs[k], listTables(dbs[k]).value)
    {
      var res := listTables(dbs[i]);
      if res.Err? {
        return Err(res.error);
      }
      allTables := allTables + [TableGroup(dbs[i], res.value)];
      i := i + 1;
    }
    return Ok(allTables);
  }

  /** Group `g` offers selection `s`: it is an array listing the table, for the selection's database. */
  predicate Offers(g: TableGroup, s: Selection)
  {
    g.db == s.db && g.tables.Some? && s.table in g.tables.value
  }

  /** `sourceTables.flatMap(...)`: every table of every group that is an array, as a selection. */
  function AllSelections(groups: seq<TableGroup>): seq<Selection>
  {
    if |groups| == 0 then []
    else
      var g := groups[|groups| - 1];
      AllSelections(groups[..|groups| - 1]) + (if g.tables.Some? then Selections(g.db, g.tables.value) else [])
  }

  /** `group.tables.map(table => ({ db: group.db, table }))`. */
  function Selections(db: string, tables: seq<string>): (r: seq<Selection>)
    ensures |r| == |tables|
    ensures forall i :: 0 <= i < |tables| ==> r[i] == Selection(db, tables[i])
  {
    if |tables| == 0 then [] else Selections(db, tables[..|tables| - 1]) + [Selection(db, tables[|tables| - 1])]
  }

  /** A selection is offered exactly when its database's group is an array holding the table. */
  lemma {:induction false} AllSelectionsMembers(groups: seq<TableGroup>)
    ensures forall s: Selection :: s in AllSelections(groups) <==>
      exists k :: 0 <= k < |groups| && Offers(groups[k], s)
  {
    if |groups| > 0 {
      var init := groups[..|groups| - 1];
      var g := groups[|groups| - 1];
      AllSelectionsMembers(init);
      forall s: Selection
        ensures (exists k :: 0 <= k < |groups| && Offers(groups[k], s)) <==>
                (exists k :: 0 <= k < |init| && Offers(init[k], s)) ||
                Offers(g, s)
      {
        if exists k :: 0 <= k < |groups| && Offers(groups[k], s) {
          var k :| 0 <= k < |groups| && Offers(groups[k], s);
          if k < |init| {
            assert init[k] == groups[k];
          }
        }
        if exists k :: 0 <= k < |init| && Offers(init[k], s) {
          var k :| 0 <= k < |init| && Offers(init[k], s);
          assert groups[k] == init[k];
        }
      }
      if g.tables.Some? {
        var sel := Selections(g.db, g.tables.value);
        assert forall s: Selection :: s in sel <==> s.db == g.db && s.table in g.tables.value by {
          forall s: Selection | s in sel ensures s.db == g.db && s.table in g.tables.value {
            var i :| 0 <= i < |sel| && sel[i] == s;
          }
          forall s: Selection | s.db == g.db && s.table in g.tables.value ensures s in sel {
            var i :| 0 <= i < |g.tables.value| && g.tables.value[i] == s.table;
            assert sel[i] == s;
          }
        }
      }
    }
  }

  // ------------------------------------------------------------ the checkboxes

  /** `list.filter(y => y !== x)`. */
  function Without<T(==)>(s: seq<T>, x: T): seq<T>
  {
    if |s| == 0 then []
    else Without(s[..|s| - 1], x) + (if s[|s| - 1] == x then [] else [s[|s| - 1]])
  }

  /** Unchecking removes every copy of the item and keeps every other item, as often as before. */
  lemma {:induction false} WithoutRemoves<T>(s: seq<T>, x: T)
    ensures multiset(Without(s, x))[x] == 0
    ensures forall y :: y != x ==> multiset(Without(s, x))[y] == multiset(s)[y]
  {
    if |s| > 0 {
      var init, last := s[..|s| - 1], s[|s| - 1];
      WithoutRemoves(init, x);
      var tail := if last == x then [] else [last];
      assert s == init + [last];
      assert Without(s, x) == Without(init, x) + tail;
      assert multiset(Without(s, x)) == multiset(Without(init, x)) + multiset(tail);
      forall y | y != x ensures multiset(Without(s, x))[y] == multiset(s)[y] {
      }
    }
  }

  /** Unchecking keeps the order of the rest: it distributes over concatenation. */
  lemma {:induction false} WithoutAppend<T>(a: seq<T>, b: seq<T>, x: T)
    ensures Without(a + b, x) == Without(a, x) + Without(b, x)
    decreases |b|
  {
    if |b| == 0 {
      assert a + b == a;
    } else {
      var init := b[..|b| - 1];
      WithoutAppend(a, init, x);
      assert (a + b)[..|a + b| - 1] == a + init;
    }
  }

  /** Checking an item that was not selected and unchecking it again restores the selection. */
  lemma RemoveAdded<T>(s: seq<T>, x: T)
    requires x !in s
    ensures Without(s + [x], x) == s
  {
    WithoutAppend(s, [x], x);
    WithoutAbsent(s, x);
    assert Without([x], x) == Without([], x) + [];
  }

  /** Removing an item that is not there changes nothing. */
  lemma {:induction false} WithoutAbsent<T>(s: seq<T>, x: T)
    requires x !in s
    ensures Without(s, x) == s
  {
    if |s| > 0 {
      WithoutAbsent(s[..|s| - 1], x);
      assert s == s[..|s| - 1] + [s[|s| - 1]];
    }
  }

  /** The "全选" buttons: everything selected (by count) clears the selection, otherwise all is selected. */
  function SelectAll<T>(selected: seq<T>, all: seq<T>): seq<T>
  {
    if |selected| == |all| then [] else all
  }

  /**
   * Pressing "select all" twice on a non-empty list ends where a full
   * selection started and vice versa: from a partial selection the first
   * press selects all and the second clears.
   */
  lemma SelectAllTwice<T>(selected: seq<T>, all: seq<T>)
    requires |all| > 0
    ensures |selected| != |all| ==> SelectAll(selected, all) == all && SelectAll(SelectAll(selected, all), all) == []
    ensures |selected| == |all| ==> SelectAll(selected, all) == [] && SelectAll(SelectAll(selected, all), all) == all
  {
  }

  // ------------------------------------------------------------ the form

  /** The form's state; `step` is 1 (connection) to 4 (review). */
  class Wizard {
    var step: int
    var connectionTested: bool
    var formError: string
    var sourceDatabases: seq<string>
    var selectedDatabase: seq<string>
    var sourceTables: seq<TableGroup>
    var selectedTables: seq<Selection>

    /** The step stays within 1..4. */
    predicate Valid()
      reads this
    {
      1 <= step <= 4
    }

    /** A fresh form: step 1, nothing tested, fetched or selected. */
    constructor()
      ensures Valid() && step == 1 && !connectionTested && formError == ""
      ensures sourceDatabases == [] && selectedDatabase == [] && sourceTables == [] && selectedTables == []
    {
      step := 1;
      connectionTested := false;
      formError := "";
      sourceDatabases := [];
      selectedDatabase := [];
      sourceTables := [];
      selectedTables := [];
    }

    /**
     * `handleTestConnection`: on success the databases are stored, the
     * connection counts as tested and "连接成功！" is shown; on failure the
     * error is shown and the connection is not tested. The step and the
     * selections do not change.
     */
    method TestConnection(source: Result<TestReply, string>, target: Result<TestReply, string>,
                          dbs: Result<ListReply, string>)
      modifies this
      ensures var r := ConnectionCheck(source, target, dbs);
        connectionTested == r.Ok? &&
        formError == (if r.Ok? then "连接成功！" else r.error) &&
        sourceDatabases == (if r.Ok? then r.value else old(sourceDatabases))
      ensures step == old(step) && selectedDatabase == old(selectedDatabase)
      ensures sourceTables == old(sourceTables) && selectedTables == old(selectedTables)
    {
      formError := "";
      var r := ConnectionCheck(source, target, dbs);
      if r.Err? {
        formError := r.error;
        connectionTested := false;
        return;
      }
      sourceDatabases := r.value;
      connectionTested := true;
      formError := "连接成功！";
    }

    /**
     * `handleListTables`: the tables of the given databases replace the
     * stored ones, or the error "获取表失败: " is shown and they stay.
     */
    method ListTables(dbs: seq<string>, listTables: TableLister)
      modifies this
      ensures var r := TablesResult(dbs, listTables);
        (r.Ok? ==> sourceTables == r.value && formError == "") &&
        (r.Err? ==> sourceTables == old(sourceTables) && formError == "获取表失败: " + r.error)
      ensures step == old(step) && connectionTested == old(connectionTested)
      ensures sourceDatabases == old(sourceDatabases) && selectedDatabase == old(selectedDatabase)
      ensures selectedTables == old(selectedTables)
    {
      formError := "";
      var r := FetchTables(dbs, listTables);
      TablesResultIs(dbs, listTables, r);
      if r.Err? {
        formError := "获取表失败: " + r.error;
        return;
      }
      sourceTables := r.value;
    }

    /** Whether "下一步" can be pressed. */
    predicate NextEnabled()
      reads this
    {
      step < 4 &&
      !(step == 1 && !connectionTested) &&
      !(step == 2 && |selectedDatabase| == 0) &&
      !(step == 3 && |selectedTables| == 0)
    }

    /**
     * `handleNextStep`. From step 1 the source is tested and its databases
     * listed; only a throwing call keeps the step, with "连接失败: ", and the
     * list's code is not looked at. From step 2 the tables of the selected
     * databases are fetched, or "获取表失败: " is shown and the step kept.
     * Step 3 moves to 4; step 4 has no next step.
     */
    method Next(source: Result<TestReply, string>, dbs: Result<ListReply, string>, listTables: TableLister)
      requires Valid()
      modifies this
      ensures Valid()
      ensures old(step) == 1 ==>
        (if source.Err? then step == 1 && formError == "连接失败: " + source.error && sourceDatabases == old(sourceDatabases)
         else if dbs.Err? then step == 1 && formError == "连接失败: " + dbs.error && sourceDatabases == old(sourceDatabases)
         else step == 2 && formError == "" && sourceDatabases == dbs.value.data)
      ensures old(step) == 1 ==> sourceTables == old(sourceTables)
      ensures old(step) == 2 ==>
        var r := TablesResult(old(selectedDatabase), listTables);
        (r.Ok? ==> step == 3 && sourceTables == r.value && formError == "") &&
        (r.Err? ==> step == 2 && sourceTables == old(sourceTables) && formError == "获取表失败: " + r.error)
      ensures old(step) == 2 ==> sourceDatabases == old(sourceDatabases)
      ensures old(step) == 3 ==> step == 4
      ensures old(step) >= 3 ==>
        formError == old(formError) && sourceDatabases == old(sourceDatabases) && sourceTables == old(sourceTables)
      ensures old(step) == 4 ==> step == 4
      ensures connectionTested == old(connectionTested)
      ensures selectedDatabase == old(selectedDatabase) && selectedTables == old(selectedTables)
    {
      if step == 1 {
        formError := "";
        if source.Err? {
          formError := "连接失败: " + source.error;
          return;
        }
        if dbs.Err? {
          formError := "连接失败: " + dbs.error;
          return;
        }
        sourceDatabases := dbs.value.data;
        step := 2;
      } else if step == 2 {
        formError := "";
        var r := FetchTables(selectedDatabase, listTables);
        TablesResultIs(selectedDatabase, listTables, r);
        if r.Err? {
          formError := "获取表失败: " + r.error;
          return;
        }
        sourceTables := r.value;
        step := 3;
      } else if step == 3 {
        step := 4;
      }
    }

    /** The "下一步" button: pressed while disabled it does nothing, otherwise it runs `Next`. */
    method PressNext(source: Result<TestReply, string>, dbs: Result<ListReply, string>, listTables: TableLister)
      requires Valid()
      modifies this
      ensures Valid()
      ensures !old(NextEnabled()) ==>
        step == old(step) && formError == old(formError) && sourceDatabases == old(sourceDatabases) &&
        sourceTables == old(sourceTables)
      ensures step > old(step) ==> step == old(step) + 1 && old(NextEnabled())
      ensures old(step) == 1 && step == 2 ==> connectionTested
      ensures old(step) == 2 && step == 3 ==> |selectedDatabase| > 0
      ensures old(step) == 3 && step == 4 ==> |selectedTables| > 0
      ensures connectionTested == old(connectionTested)
      ensures selectedDatabase == old(selectedDatabase) && selectedTables == old(selectedTables)
    {
      if NextEnabled() {
        Next(source, dbs, listTables);
      }
    }

    /** `handlePrevStep`: back one step, except from step 1. */
    method Prev()
      requires Valid()
      modifies this
      ensures Valid()
      ensures step == (if old(step) > 1 then old(step) - 1 else 1)
      ensures connectionTested == old(connectionTested) && formError == old(formError)
      ensures sourceDatabases == old(sourceDatabases) && selectedDatabase == old(selectedDatabase)
      ensures sourceTables == old(sourceTables) && selectedTables == old(selectedTables)
    {
      if step > 1 {
        step := step - 1;
      }
    }

    /** Step 2's "全选": clears when as many databases are selected as listed, otherwise selects all of them. */
    method SelectAllDatabases()
      modifies this
      ensures |old(selectedDatabase)| == |sourceDatabases| ==> selectedDatabase == []
      ensures |old(selectedDatabase)| != |sourceDatabases| ==> selectedDatabase == sourceDatabases
      ensures step == old(step) && connectionTested == old(connectionTested) && formError == old(formError)
      ensures sourceDatabases == old(sourceDatabases) && sourceTables == old(sourceTables)
      ensures selectedTables == old(selectedTables)
    {
      selectedDatabase := SelectAll(selectedDatabase, sourceDatabases);
    }

    /** A database checkbox: checking appends the database, unchecking removes exactly it. */
    method ToggleDatabase(db: string, checked: bool)
      modifies this
      ensures checked ==> selectedDatabase == old(selectedDatabase) + [db]
      ensures !checked ==> selectedDatabase == Without(old(selectedDatabase), db)
      ensures step == old(step) && connectionTested == old(connectionTested) && formError == old(formError)
      ensures sourceDatabases == old(sourceDatabases) && sourceTables == old(sourceTables)
      ensures selectedTables == old(selectedTables)
    {
      if checked {
        selectedDatabase := selectedDatabase + [db];
      } else {
        selectedDatabase := Without(selectedDatabase, db);
      }
    }

    /** Step 3's "全选": clears when as many tables are selected as offered, otherwise selects every offered table. */
    method SelectAllTables()
      modifies this
      ensures |old(selectedTables)| == |AllSelections(sourceTables)| ==> selectedTables == []
      ensures |old(selectedTables)| != |AllSelections(sourceTables)| ==> selectedTables == AllSelections(sourceTables)
      ensures step == old(step) && connectionTested == old(connectionTested) && formError == old(formError)
      ensures sourceDatabases == old(sourceDatabases) && sourceTables == old(sourceTables)
      ensures selectedDatabase == old(selectedDatabase)
    {
      selectedTables := SelectAll(selectedTables, AllSelections(sourceTables));
    }

    /** A table checkbox: checking appends the selection, unchecking removes exactly that database and table. */
    method ToggleTable(db: string, table: string, checked: bool)
      modifies this
      ensures checked ==> selectedTables == old(selectedTables) + [Selection(db, table)]
      ensures !checked ==> selectedTables == Without(old(selectedTables), Selection(db, table))
      ensures step == old(step) && connectionTested == old(connectionTested) && formError == old(formError)
      ensures sourceDatabases == old(sourceDatabases) && sourceTables == old(sourceTables)
      ensures selectedDatabase == old(selectedDatabase)
    {
      if checked {
        selectedTables := selectedTables + [Selection(db, table)];
      } else {
        selectedTables := Without(selectedTables, Selection(db, table));
      }
    }
  }

  /** What the table loop yields for `dbs`: the groups, or the first thrown message. */
  function TablesResult(dbs: seq<string>, listTables: TableLister): Result<seq<TableGroup>, string>
  {
    if |dbs| == 0 then Ok([])
    else
      var first := listTables(dbs[0]);
      if first.Err? then Err(first.error)
      else
        var rest := TablesResult(dbs[1..], listTables);
        if rest.Err? then rest else Ok([TableGroup(dbs[0], first.value)] + rest.value)
  }

  /** Any result meeting `FetchTables`' contract is `TablesResult`. */
  lemma {:induction false} TablesResultIs(dbs: seq<string>, listTables: TableLister, r: Result<seq<TableGroup>, string>)
    requires r.Ok? <==> forall i :: 0 <= i < |dbs| ==> listTables(dbs[i]).Ok?
    requires r.Ok? ==>
      |r.value| == |dbs| &&
      forall i :: 0 <= i < |dbs| ==> r.value[i] == TableGroup(dbs[i], listTables(dbs[i]).value)
    requires r.Err? ==>
      exists j :: 0 <= j < |dbs| && listTables(dbs[j]).Err? && r.error == listTables(dbs[j]).error &&
                  forall i :: 0 <= i < j ==> listTables(dbs[i]).Ok?
    ensures r == TablesResult(dbs, listTables)
  {
    if |dbs| > 0 {
      var first := listTables(dbs[0]);
      if first.Err? {
        assert !(forall i :: 0 <= i < |dbs| ==> listTables(dbs[i]).Ok?);
        var j :| 0 <= j < |dbs| && listTables(dbs[j]).Err? && r.error == listTables(dbs[j]).error &&
                 forall i :: 0 <= i < j ==> listTables(dbs[i]).Ok?;
        assert !(0 < j);
      } else {
        var rest: Result<seq<TableGroup>, string>;
        if r.Ok? {
          rest := Ok(r.value[1..]);
          assert forall i :: 0 <= i < |dbs| - 1 ==> dbs[1..][i] == dbs[i + 1];
        } else {
          var j :| 0 <= j < |dbs| && listTables(dbs[j]).Err? && r.error == listTables(dbs[j]).error &&
                   forall i :: 0 <= i < j ==> listTables(dbs[i]).Ok?;
          rest := r;
          assert j > 0;
          assert dbs[1..][j - 1] == dbs[j];
          assert forall i :: 0 <= i < j - 1 ==> dbs[1..][i] == dbs[i + 1];
          assert !(forall i :: 0 <= i < |dbs| - 1 ==> listTables(dbs[1..][i]).Ok?);
        }
        assert forall i :: 0 <= i < |dbs| - 1 ==> dbs[1..][i] == dbs[i + 1];
        TablesResultIs(dbs[1..], listTables, rest);
        if r.Ok? {
          assert r.value == [TableGroup(dbs[0], first.value)] + rest.value;
        }
      }
    }
  }
}
