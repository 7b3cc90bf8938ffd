/**
 * The scenarios of select_test.go and insert_test.go: each lemma states the
 * exact statement and values a test expects from the builder's fields.
 */
module BuilderTests {
  import opened Wrappers
  import opened Conditions
  import Text
  import Orders
  import Selects
  import Inserts

  /** The mixed string and integer values the tests bind. */
  datatype Scalar = Str(s: string) | Int(i: int)

  /** NewSelect("foo_table"), as a value. */
  function Table(): Selects.Query<Scalar>
  {
    Selects.Query("foo_table", [], [], [], 0, 0)
  }

  /** The test table with only conditions set, all of which render. */
  lemma Filtered(cs: seq<Condition<Scalar>>, rs: seq<SqlResult<Scalar>>)
    requires Results(cs) == rs && AllOk(rs)
    ensures Selects.Compile(Table().(conditions := cs)) ==
      SqlResult("SELECT * FROM foo_table" + Selects.WhereClause(Fragments(rs)), AllValues(rs), None)
  {
    var q := Table().(conditions := cs);
    Selects.CompileOk(q);
    PlainHead(q);
  }

  lemma PlainHead(q: Selects.Query<Scalar>)
    requires q.table == "foo_table" && q.columns == []
    ensures Selects.Head(q) == "SELECT * FROM foo_table"
  {
  }

  lemma SimpleSelect()
    ensures Selects.Compile(Table()) == SqlResult("SELECT * FROM foo_table", [], None)
  {
    Filtered([], []);
  }

  lemma ProjectColumns()
    ensures Selects.Compile(Table().(columns := ["foo", "bar"])) == SqlResult("SELECT foo, bar FROM foo_table", [], None)
  {
    Selects.CompileOk(Table().(columns := ["foo", "bar"]));
    assert Selects.Projection(["foo", "bar"]) == "foo, bar" by {
      ProjectTwo();
    }
    ProjectHead();
  }

  lemma ProjectTwo()
    ensures Text.Join(", ", ["foo", "bar"]) == "foo, bar"
  {
    assert ["foo", "bar"][..1] == ["foo"];
  }

  lemma FilterColumn()
    ensures Selects.Compile(Table().(conditions := [Filter("foo =", Str("bar"))]))
      == SqlResult("SELECT * FROM foo_table WHERE foo = ?", [Str("bar")], None)
  {
    var r := SqlResult("foo = ?", [Str("bar")], None);
    FilterSql("foo =", Str("bar"));
    assert Results([Filter("foo =", Str("bar"))]) == [r];
    OneFragment(r);
    Filtered([Filter("foo =", Str("bar"))], [r]);
    FilterWhere();
  }

  lemma FilterMultipleColumns()
    ensures Selects.Compile(Table().(conditions := [Filter("foo =", Str("bar")), Filter("baz =", Str("qux"))]))
      == SqlResult("SELECT * FROM foo_table WHERE foo = ? AND baz = ?", [Str("bar"), Str("qux")], None)
  {
    var r1 := SqlResult("foo = ?", [Str("bar")], None);
    var r2 := SqlResult("baz = ?", [Str("qux")], None);
    FilterSql("foo =", Str("bar"));
    FilterSql("baz =", Str("qux"));
    assert Results([Filter("foo =", Str("bar")), Filter("baz =", Str("qux"))]) == [r1, r2];
    TwoFragments(r1, r2);
    AndWhere();
    Filtered([Filter("foo =", Str("bar")), Filter("baz =", Str("qux"))], [r1, r2]);
  }

  lemma FilterSql(column: string, v: Scalar)
    requires column == "foo =" || column == "baz ="
    ensures Sql(Filter(column, v)).sql == if column == "foo =" then "foo = ?" else "baz = ?"
  {
  }

  lemma AndWhere()
    ensures "SELECT * FROM foo_table" + Selects.WhereClause(["foo = ?", "baz = ?"])
      == "SELECT * FROM foo_table WHERE foo = ? AND baz = ?"
  {
    AndJoin();
    AndConcat();
  }

  lemma AndJoin()
    ensures Text.Join(" AND ", ["foo = ?", "baz = ?"]) == "foo = ? AND baz = ?"
  {
    assert ["foo = ?", "baz = ?"][..1] == ["foo = ?"];
  }

  lemma TwoFragments(r1: SqlResult<Scalar>, r2: SqlResult<Scalar>)
    ensures Fragments([r1, r2]) == [r1.sql, r2.sql]
    ensures AllValues([r1, r2]) == r1.values + r2.values
  {
    AllValuesAppend([], r1);
    AllValuesAppend([r1], r2);
    assert [] + [r1] == [r1];
    assert [r1] + [r2] == [r1, r2];
  }

  lemma OneFragment(r: SqlResult<Scalar>)
    ensures Fragments([r]) == [r.sql]
    ensures AllValues([r]) == r.values
    ensures Selects.WhereClause(Fragments([r])) == " WHERE " + r.sql
  {
    AllValuesAppend([], r);
    assert [] + [r] == [r];
  }

  lemma BetweenFilter()
    ensures Selects.Compile(Table().(conditions := [Between("foo", Str("bar"), Str("baz"))]))
      == SqlResult("SELECT * FROM foo_table WHERE foo BETWEEN ? AND ?", [Str("bar"), Str("baz")], None)
  {
    var r := SqlResult("foo BETWEEN ? AND ?", [Str("bar"), Str("baz")], None);
    BetweenSql();
    OneFragment(r);
    Filtered([Between("foo", Str("bar"), Str("baz"))], [r]);
    BetweenWhere();
  }

  lemma BetweenSql()
    ensures Sql(Between("foo", Str("bar"), Str("baz"))) == SqlResult("foo BETWEEN ? AND ?", [Str("bar"), Str("baz")], None)
  {
    assert "foo" + " BETWEEN ? AND ?" == "foo BETWEEN ? AND ?";
  }

  lemma AlternativeConditions()
    ensures Selects.Compile(Table().(conditions := [LogicOr([Filter("foo =", Str("bar")), Filter("baz =", Int(3))])]))
      == SqlResult("SELECT * FROM foo_table WHERE (foo = ?) OR (baz = ?)", [Str("bar"), Int(3)], None)
  {
    var f1 := Filter("foo =", Str("bar"));
    var f2 := Filter("baz =", Int(3));
    var r := SqlResult("(foo = ?) OR (baz = ?)", [Str("bar"), Int(3)], None);
    TwoChildren(f1, f2);
    OneFragment(r);
    Filtered([LogicOr([f1, f2])], [r]);
    OrWhere();
  }

  lemma TwoChildren(f1: Condition<Scalar>, f2: Condition<Scalar>)
    requires f1 == Filter("foo =", Str("bar")) && f2 == Filter("baz =", Int(3))
    ensures Sql(LogicOr([f1, f2])) == SqlResult("(foo = ?) OR (baz = ?)", [Str("bar"), Int(3)], None)
  {
    FilterSql("foo =", Str("bar"));
    FilterSql("baz =", Int(3));
    LogicOrSingle(f1);
    LogicOrAppend([f1], f2);
    assert [f1] + [f2] == [f1, f2];
    OrFragment();
  }

  /** The test table with only orders set. */
  lemma Ordered(orders: seq<Orders.Order>)
    ensures Selects.Compile(Table().(orders := orders)) ==
      SqlResult("SELECT * FROM foo_table" + Selects.OrderByClause(orders), [], None)
  {
    var q := Table().(orders := orders);
    Selects.CompileUnconditional(q);
    PlainHead(q);
    assert Selects.LimitClause(0, 0) == "";
  }

  lemma TestTerms()
    ensures Orders.OrderSql(Orders.Order("foo", Orders.Asc)) == "foo ASC"
    ensures Orders.OrderSql(Orders.Order("foo", Orders.Desc)) == "foo DESC"
    ensures Orders.OrderSql(Orders.Order("bar", Orders.Asc)) == "bar ASC"
  {
    assert "foo" + " " + "ASC" == "foo ASC";
    assert "foo" + " " + "DESC" == "foo DESC";
    assert "bar" + " " + "ASC" == "bar ASC";
  }

  lemma SortAsc()
    ensures Selects.Compile(Table().(orders := [Orders.Order("foo", Orders.Asc)]))
      == SqlResult("SELECT * FROM foo_table ORDER BY foo ASC", [], None)
  {
    Ordered([Orders.Order("foo", Orders.Asc)]);
    TestTerms();
    assert Orders.Terms([Orders.Order("foo", Orders.Asc)]) == ["foo ASC"];
    assert "SELECT * FROM foo_table" + (" ORDER BY " + "foo ASC") == "SELECT * FROM foo_table ORDER BY foo ASC";
  }

  lemma SortDesc()
    ensures Selects.Compile(Table().(orders := [Orders.Order("foo", Orders.Desc)]))
      == SqlResult("SELECT * FROM foo_table ORDER BY foo DESC", [], None)
  {
    Ordered([Orders.Order("foo", Orders.Desc)]);
    TestTerms();
    assert Orders.Terms([Orders.Order("foo", Orders.Desc)]) == ["foo DESC"];
    assert "SELECT * FROM foo_table" + (" ORDER BY " + "foo DESC") == "SELECT * FROM foo_table ORDER BY foo DESC";
  }

  lemma MultipleSorts()
    ensures Selects.Compile(Table().(orders := [Orders.Order("foo", Orders.Desc), Orders.Order("bar", Orders.Asc)]))
      == SqlResult("SELECT * FROM foo_table ORDER BY foo DESC, bar ASC", [], None)
  {
    var orders := [Orders.Order("foo", Orders.Desc), Orders.Order("bar", Orders.Asc)];
    Ordered(orders);
    TwoTerms(orders);
    TwoTermsConcat();
  }

  lemma TwoTerms(orders: seq<Orders.Order>)
    requires orders == [Orders.Order("foo", Orders.Desc), Orders.Order("bar", Orders.Asc)]
    ensures Orders.OrderList(orders) == "foo DESC, bar ASC"
  {
    TestTerms();
    assert Orders.Terms(orders) == ["foo DESC", "bar ASC"];
    assert ["foo DESC", "bar ASC"][..1] == ["foo DESC"];
    assert "foo DESC" + ", " + "bar ASC" == "foo DESC, bar ASC";
  }

  /** The test table with only pagination set. */
  lemma Paginated(q: Selects.Query<Scalar>)
    requires q == Table().(limit := q.limit, offset := q.offset)
    ensures Selects.Compile(q) == SqlResult("SELECT * FROM foo_table" + Selects.LimitClause(q.limit, q.offset), [], None)
  {
    Selects.CompileUnconditional(q);
    PlainHead(q);
    assert Selects.OrderByClause(q.orders) == "";
  }

  lemma SmallDecimals()
    ensures Text.Decimal(0) == "0" && Text.Decimal(10) == "10" && Text.Decimal(40) == "40"
  {
    assert Text.NatDecimal(10) == Text.NatDecimal(1) + [Text.Digit(0)];
    assert Text.NatDecimal(40) == Text.NatDecimal(4) + [Text.Digit(0)];
  }

  lemma Limit()
    ensures Selects.Compile(Table().(limit := 10)) == SqlResult("SELECT * FROM foo_table LIMIT 0, 10", [], None)
  {
    Paginated(Table().(limit := 10));
    SmallDecimals();
    assert "SELECT * FROM foo_table" + (" LIMIT " + "0" + ", " + "10") == "SELECT * FROM foo_table LIMIT 0, 10";
  }

  lemma Offset()
    ensures Selects.Compile(Table().(offset := 40))
      == SqlResult("SELECT * FROM foo_table LIMIT 40, 18446744073709551615", [], None)
  {
    Paginated(Table().(offset := 40));
    SmallDecimals();
    OffsetConcat();
  }

  lemma OffsetAndLimit()
    ensures Selects.Compile(Table().(limit := 10, offset := 40))
      == SqlResult("SELECT * FROM foo_table LIMIT 40, 10", [], None)
  {
    Paginated(Table().(limit := 10, offset := 40));
    SmallDecimals();
    assert "SELECT * FROM foo_table" + (" LIMIT " + "40" + ", " + "10") == "SELECT * FROM foo_table LIMIT 40, 10";
  }

  /**
   * Not one of the package's tests: a condition of another implementation that
   * fails, nested in a LogicOr after a Filter, makes the whole statement
   * fail with its error and no SQL.
   */
  lemma NestedFailure()
    ensures Selects.Compile(Table().(conditions :=
      [Filter("foo =", Str("bar")), LogicOr([Filter("baz =", Int(3)), Custom(Failed(Error("bad")))])]))
      == SqlResult("", [], Some(Error("bad")))
  {
    var bad: Condition<Scalar> := Custom(Failed(Error("bad")));
    var or := LogicOr([Filter("baz =", Int(3)), bad]);
    LogicOrFirstFailure([Filter("baz =", Int(3)), bad], 1);
    Selects.CompileFirstFailure(Table().(conditions := [Filter("foo =", Str("bar")), or]), 1);
  }

  /** Chaining returns new builders and leaves each receiver as it was. */
  method ChainFilters() returns (sql: string, values: seq<Scalar>, err: Option<Error>)
    ensures sql == "SELECT * FROM foo_table WHERE foo = ? AND baz = ?"
    ensures values == [Str("bar"), Str("qux")] && err == None
  {
    var q0 := new Selects.Select<Scalar>("foo_table");
    var q1 := q0.Filter("foo =", Str("bar"));
    var q2 := q1.Filter("baz =", Str("qux"));
    assert q0.Model() == Table();
    assert q1.Model() == Table().(conditions := [Filter("foo =", Str("bar"))]);
    assert q2.Model() == Table().(conditions := [Filter("foo =", Str("bar")), Filter("baz =", Str("qux"))]);
    sql, values, err := q2.SQL();
    FilterMultipleColumns();
  }

  /**
   * SortAsc orders a fresh builder, Order then replaces that order, and
   * IsOrdered reports whether an order is set.
   */
  method ChainOrders() returns (unordered: bool, ordered: bool, sql: string, values: seq<Scalar>, err: Option<Error>)
    ensures !unordered && ordered
    ensures sql == "SELECT * FROM foo_table ORDER BY foo DESC, bar ASC"
    ensures values == [] && err == None
  {
    var q0 := new Selects.Select<Scalar>("foo_table");
    var q1 := q0.SortAsc("foo");
    unordered := q0.IsOrdered();
    ordered := q1.IsOrdered();
    var q2 := q1.Order([Orders.Order("foo", Orders.Desc), Orders.Order("bar", Orders.Asc)]);
    sql, values, err := q2.SQL();
    MultipleSorts();
  }

  /** Limit and Offset each set their own field. */
  method ChainPagination() returns (limited: string, paged: string)
    ensures limited == "SELECT * FROM foo_table LIMIT 0, 10"
    ensures paged == "SELECT * FROM foo_table LIMIT 40, 10"
  {
    var q0 := new Selects.Select<Scalar>("foo_table");
    var q1 := q0.Limit(10);
    var q2 := q1.Offset(40);
    var values, err;
    limited, values, err := q1.SQL();
    Limit();
    paged, values, err := q2.SQL();
    OffsetAndLimit();
  }

  method InsertColumns() returns (sql: string, values: seq<Scalar>)
    ensures sql == "INSERT INTO foo_table(foo, bar, baz) VALUES (?, ?, ?)"
    ensures values == [Str("foo value"), Str("bar value"), Int(3)]
  {
    var q := new Inserts.Insert<Scalar>("foo_table");
    q := q.Col("foo", Str("foo value"));
    q := q.Col("bar", Str("bar value"));
    q := q.Col("baz", Int(3));
    assert q.table == "foo_table" && q.columns == ["foo", "bar", "baz"];
    var r := q.SQL();
    InsertStatement();
    sql, values := r.0, r.1;
  }

  lemma InsertStatement()
    ensures "INSERT INTO " + "foo_table" + "(" + Text.Join(", ", ["foo", "bar", "baz"]) + ") VALUES ("
      + Inserts.PlaceholderList(3) + ")" == "INSERT INTO foo_table(foo, bar, baz) VALUES (?, ?, ?)"
  {
    ThreeColumns();
    ThreePlaceholders();
    InsertConcat();
  }

  lemma ThreeColumns()
    ensures Text.Join(", ", ["foo", "bar", "baz"]) == "foo, bar, baz"
  {
    assert ["foo", "bar", "baz"][..2] == ["foo", "bar"];
    assert ["foo", "bar"][..1] == ["foo"];
  }

  lemma ThreePlaceholders()
    ensures Inserts.PlaceholderList(3) == "?, ?, ?"
  {
    assert seq(3, _ => "?") == ["?", "?", "?"];
    assert ["?", "?", "?"][..2] == ["?", "?"];
    assert ["?", "?"][..1] == ["?"];
  }

  /*
   * The string-literal steps of the scenarios above, each in its own lemma so
   * that no scenario has to unfold more than one literal concatenation.
   */
  lemma ProjectHead()
    ensures "SELECT " + "foo, bar" + " FROM " + "foo_table" == "SELECT foo, bar FROM foo_table"
  {
  }

  lemma FilterWhere()
    ensures "SELECT * FROM foo_table" + (" WHERE " + "foo = ?") == "SELECT * FROM foo_table WHERE foo = ?"
  {
  }

  lemma AndConcat()
    ensures "SELECT * FROM foo_table" + (" WHERE " + "foo = ? AND baz = ?") == "SELECT * FROM foo_table WHERE foo = ? AND baz = ?"
  {
  }

  lemma BetweenWhere()
    ensures "SELECT * FROM foo_table" + (" WHERE " + "foo BETWEEN ? AND ?") == "SELECT * FROM foo_table WHERE foo BETWEEN ? AND ?"
  {
  }

  lemma OrFragment()
    ensures "(" + "foo = ?" + ")" + " OR (" + "baz = ?" + ")" == "(foo = ?) OR (baz = ?)"
  {
  }

  lemma OrWhere()
    ensures "SELECT * FROM foo_table" + (" WHERE " + "(foo = ?) OR (baz = ?)") == "SELECT * FROM foo_table WHERE (foo = ?) OR (baz = ?)"
  {
  }

  lemma TwoTermsConcat()
    ensures "SELECT * FROM foo_table" + (" ORDER BY " + "foo DESC, bar ASC") == "SELECT * FROM foo_table ORDER BY foo DESC, bar ASC"
  {
  }

  lemma OffsetConcat()
    ensures "SELECT * FROM foo_table" + (" LIMIT " + "40" + ", " + Selects.NoUpperBound) == "SELECT * FROM foo_table LIMIT 40, 18446744073709551615"
  {
  }

  lemma InsertConcat()
    ensures "INSERT INTO " + "foo_table" + "(" + "foo, bar, baz" + ") VALUES (" + "?, ?, ?" + ")" == "INSERT INTO foo_table(foo, bar, baz) VALUES (?, ?, ?)"
  {
  }
}
