/**
 * Selects: the immutable SELECT builder. Every configuration call returns a
 * new builder; SQL() renders the statement and its bound values.
 */
module Selects {
  import opened Wrappers
  import opened Text
  import Conditions
  import Orders

  newtype int64 = x: int | -0x8000_0000_0000_0000 <= x < 0x8000_0000_0000_0000

  /** The second LIMIT argument when only an offset is set: the largest unsigned 64-bit value. */
  const NoUpperBound := "18446744073709551615"

  /** The fields of a Select builder, as a value. */
  datatype Query<V> = Query(
    table: string,
    columns: seq<string>,
    conditions: seq<Conditions.Condition<V>>,
    orders: seq<Orders.Order>,
    limit: int64,
    offset: int64)

  /** The projection: "*" when no columns were projected. */
  function Projection(columns: seq<string>): (s: string)
    ensures |columns| == 0 ==> s == "*"
    ensures (forall k :: 0 <= k < |columns| ==> '?' !in columns[k]) ==> '?' !in s
  {
    JoinPlain(", ", columns);
    if |columns| > 0 then Join(", ", columns) else "*"
  }

  /** The WHERE clause over the conditions' fragments, which are not parenthesised. */
  function WhereClause(fragments: seq<string>): (s: string)
    ensures s == "" <==> fragments == []
  {
    if |fragments| > 0 then " WHERE " + Join(" AND ", fragments) else ""
  }

  function OrderByClause(orders: seq<Orders.Order>): (s: string)
    ensures s == "" <==> orders == []
  {
    if |orders| > 0 then " ORDER BY " + Orders.OrderList(orders) else ""
  }

  /** The pagination policy: "LIMIT offset, count", with no upper bound when only an offset is set. */
  function LimitClause(limit: int64, offset: int64): (s: string)
    ensures s == "" <==> limit <= 0 && offset <= 0
    ensures '?' !in s
  {
    if limit > 0 then " LIMIT " + Decimal(offset as int) + ", " + Decimal(limit as int)
    else if offset > 0 then " LIMIT " + Decimal(offset as int) + ", " + NoUpperBound
    else ""
  }

  /** Everything of the statement before its WHERE clause. */
  function Head<V>(q: Query<V>): string
  {
    "SELECT " + Projection(q.columns) + " FROM " + q.table
  }

  /** What SQL() returns for a builder with these fields. */
  function Compile<V>(q: Query<V>): (r: Conditions.SqlResult<V>)
    ensures r.err.Some? ==> r.sql == "" && r.values == []
    ensures r.err == None ==> Head(q) <= r.sql
  {
    var rs := Conditions.Results(q.conditions);
    match Conditions.FirstError(rs)
    case Some(e) => Conditions.Failed(e)
    case None =>
      Conditions.SqlResult(Head(q) + WhereClause(Conditions.Fragments(rs)) + OrderByClause(q.orders) + LimitClause(q.limit, q.offset), Conditions.AllValues(rs), None)
  }

  /** With every condition rendering, the statement is its head, WHERE clause and tail. */
  lemma CompileOk<V>(q: Query<V>)
    requires Conditions.AllOk(Conditions.Results(q.conditions))
    ensures Compile(q) == Conditions.SqlResult(
      Head(q) + WhereClause(Conditions.Fragments(Conditions.Results(q.conditions)))
        + OrderByClause(q.orders) + LimitClause(q.limit, q.offset),
      Conditions.AllValues(Conditions.Results(q.conditions)),
      None)
  {
    Conditions.FirstErrorNone(Conditions.Results(q.conditions));
  }

  /** Without conditions there is no WHERE clause and nothing is bound. */
  lemma CompileUnconditional<V>(q: Query<V>)
    requires q.conditions == []
    ensures Compile(q) == Conditions.SqlResult(Head(q) + OrderByClause(q.orders) + LimitClause(q.limit, q.offset), [], None)
  {
    var rs := Conditions.Results(q.conditions);
    assert rs == [];
    CompileOk(q);
    assert Head(q) + WhereClause(Conditions.Fragments(rs)) == Head(q);
  }

  /** The statement fails exactly when one of its conditions fails. */
  lemma CompileFails<V>(q: Query<V>)
    ensures Compile(q).err.Some? <==> exists k :: 0 <= k < |q.conditions| && Conditions.Sql(q.conditions[k]).err.Some?
  {
    Conditions.FirstErrorNone(Conditions.Results(q.conditions));
  }

  /**
   * The first failing condition's error is returned, with no SQL and no
   * values; the conditions after it do not matter.
   */
  lemma CompileFirstFailure<V>(q: Query<V>, i: nat)
    requires i < |q.conditions| && Conditions.Sql(q.conditions[i]).err.Some?
    requires forall k :: 0 <= k < i ==> Conditions.Sql(q.conditions[k]).err == None
    ensures Compile(q) == Conditions.Failed(Conditions.Sql(q.conditions[i]).err.value)
  {
    Conditions.FirstErrorAt(Conditions.Results(q.conditions), i);
  }

  /**
   * Condition accumulates: the WHERE clause of the extended builder is the
   * old one followed by " AND " and the new fragment (or starts with it),
   * the new values follow the old ones, and the rest of the statement stays.
   */
  lemma ConditionAccumulates<V>(q: Query<V>, c: Conditions.Condition<V>)
    requires Compile(q).err == None && Conditions.Sql(c).err == None
    ensures Compile(q.(conditions := q.conditions + [c])) ==
      Conditions.SqlResult(
        Head(q)
          + (if q.conditions == [] then " WHERE " + Conditions.Sql(c).sql
             else WhereClause(Conditions.Fragments(Conditions.Results(q.conditions))) + " AND " + Conditions.Sql(c).sql)
          + OrderByClause(q.orders) + LimitClause(q.limit, q.offset),
        Compile(q).values + Conditions.Sql(c).values,
        None)
  {
    var q' := q.(conditions := q.conditions + [c]);
    var rs := Conditions.Results(q.conditions);
    var r := Conditions.Sql(c);
    Conditions.ResultsAppend(q.conditions, c);
    Conditions.FirstErrorNone(rs);
    assert Conditions.AllOk(rs + [r]);
    CompileOk(q);
    CompileOk(q');
    WhereAppend(Conditions.Fragments(rs), r.sql);
    Conditions.FragmentsAppend(rs, r);
    Conditions.AllValuesAppend(rs, r);
  }

  /** The WHERE clause of one more fragment. */
  lemma WhereAppend(fragments: seq<string>, s: string)
    ensures WhereClause(fragments + [s]) ==
      if fragments == [] then " WHERE " + s else WhereClause(fragments) + " AND " + s
  {
    if fragments != [] {
      JoinAppend(" AND ", fragments, s);
    } else {
      assert fragments + [s] == [s];
    }
  }

  /** No '?' anywhere in the builder's own strings: table, columns, condition columns, order columns. */
  predicate PlainQuery<V>(q: Query<V>)
  {
    && '?' !in q.table
    && (forall k :: 0 <= k < |q.columns| ==> '?' !in q.columns[k])
    && (forall k :: 0 <= k < |q.conditions| ==> Conditions.Builtin(q.conditions[k]) && Conditions.PlainColumns(q.conditions[k]))
    && (forall k :: 0 <= k < |q.orders| ==> '?' !in q.orders[k].column)
  }

  /**
   * Placeholders line up with values: a builder whose conditions are the
   * package's own and whose strings hold no '?' renders exactly one
   * placeholder per bound value.
   */
  lemma CompilePlaceholders<V>(q: Query<V>)
    requires PlainQuery(q)
    ensures Compile(q).err == None
    ensures Placeholders(Compile(q).sql) == |Compile(q).values|
  {
    var rs := Conditions.Results(q.conditions);
    forall k | 0 <= k < |rs|
      ensures rs[k].err == None && Placeholders(rs[k].sql) == |rs[k].values|
    {
      Conditions.PlaceholdersMatchValues(q.conditions[k]);
    }
    Conditions.FirstErrorNone(rs);
    WherePlaceholders(rs);
    HeadAndTailPlain(q);
    var where := WhereClause(Conditions.Fragments(rs));
    var orderBy := OrderByClause(q.orders);
    PlaceholdersConcat(Head(q), where);
    PlaceholdersConcat(Head(q) + where, orderBy);
    PlaceholdersConcat(Head(q) + where + orderBy, LimitClause(q.limit, q.offset));
  }

  lemma WherePlaceholders<V>(rs: seq<Conditions.SqlResult<V>>)
    requires forall k :: 0 <= k < |rs| ==> Placeholders(rs[k].sql) == |rs[k].values|
    ensures Placeholders(WhereClause(Conditions.Fragments(rs))) == |Conditions.AllValues(rs)|
  {
    var frags := Conditions.Fragments(rs);
    Conditions.PlaceholdersOfResults(rs);
    PlaceholdersJoin(" AND ", frags);
    PlaceholdersZero(" WHERE ");
    PlaceholdersConcat(" WHERE ", Join(" AND ", frags));
  }

  lemma HeadAndTailPlain<V>(q: Query<V>)
    requires PlainQuery(q)
    ensures Placeholders(Head(q)) == 0 && Placeholders(OrderByClause(q.orders)) == 0
    ensures Placeholders(LimitClause(q.limit, q.offset)) == 0
  {
    var projection := Projection(q.columns);
    PlaceholdersZero("SELECT " + projection + " FROM " + q.table);
    if q.orders != [] {
      Orders.OrderListPlain(q.orders);
    }
    PlaceholdersZero(OrderByClause(q.orders));
    PlaceholdersZero(LimitClause(q.limit, q.offset));
  }

  /**
   * The conditions loop of SQL(): each condition's fragment and values in
   * order, stopping at the first condition that fails with no fragments and
   * no values.
   */
  method RenderConditions<V>(conditions: seq<Conditions.Condition<V>>)
    returns (conds: seq<string>, values: seq<V>, err: Option<Conditions.Error>)
    ensures err == Conditions.FirstError(Conditions.Results(conditions))
    ensures err == None ==> conds == Conditions.Fragments(Conditions.Results(conditions))
    ensures err == None ==> values == Conditions.AllValues(Conditions.Results(conditions))
    ensures err.Some? ==> conds == [] && values == []
  {
    ghost var rs := Conditions.Results(conditions);
    conds, values := [], [];
    for i := 0 to |conditions|
      invariant Conditions.AllOk(rs[..i])
      invariant conds == Conditions.Fragments(rs[..i])
      invariant values == Conditions.AllValues(rs[..i])
    {
      var s, vs, e := Conditions.Render(conditions[i]);
      if e.Some? {
        Conditions.FirstErrorAt(rs, i);
        return [], [], e;
      }
      assert rs[..i + 1][..i] == rs[..i];
      conds := conds + [s];
      values := values + vs;
    }
    assert rs[..|conditions|] == rs;
    Conditions.FirstErrorNone(rs);
    err := None;
  }

  /** The orders loop of SQL(): each order's term, in order. */
  method RenderOrders(orders: seq<Orders.Order>) returns (terms: seq<string>)
    ensures terms == Orders.Terms(orders)
  {
    terms := [];
    for i := 0 to |orders|
      invariant terms == Orders.Terms(orders[..i])
    {
      terms := terms + [Orders.OrderSql(orders[i])];
    }
    assert orders[..|orders|] == orders;
  }

  class Select<V> {
    var table: string
    var columns: seq<string>
    var conditions: seq<Conditions.Condition<V>>
    var orders: seq<Orders.Order>
    var limit: int64
    var offset: int64

    function Model(): Query<V>
      reads this
    {
      Query(table, columns, conditions, orders, limit, offset)
    }

    /** NewSelect: a builder over the table with nothing configured. */
    constructor (table: string)
      ensures Model() == Query(table, [], [], [], 0, 0)
    {
      this.table := table;
      columns := [];
      conditions := [];
      orders := [];
      limit := 0;
      offset := 0;
    }

    method Clone() returns (r: Select<V>)
      ensures fresh(r) && r.Model() == Model()
    {
      r := new Select(table);
      r.columns, r.conditions, r.orders := columns, conditions, orders;
      r.limit, r.offset := limit, offset;
    }

    /** Replaces the projected columns. */
    method Project(columns: seq<string>) returns (r: Select<V>)
      ensures fresh(r) && r.Model() == Model().(columns := columns)
    {
      r := Clone();
      r.columns := columns;
    }

    /** Shorthand for Condition(Filter(column, value)). */
    method Filter(column: string, value: V) returns (r: Select<V>)
      ensures fresh(r) && r.Model() == Model().(conditions := conditions + [Conditions.Filter(column, value)])
    {
      r := Condition(Conditions.Filter(column, value));
    }

    /** Adds one more condition to the conjunction. */
    method Condition(condition: Conditions.Condition<V>) returns (r: Select<V>)
      ensures fresh(r) && r.Model() == Model().(conditions := conditions + [condition])
    {
      r := Clone();
      r.conditions := r.conditions + [condition];
    }

    /** Shorthand for Order of the one ascending column; earlier orders are dropped. */
    method SortAsc(column: string) returns (r: Select<V>)
      ensures fresh(r) && r.Model() == Model().(orders := [Orders.Order(column, Orders.Asc)])
    {
      r := Order([Orders.Order(column, Orders.Asc)]);
    }

    /** Shorthand for Order of the one descending column; earlier orders are dropped. */
    method SortDesc(column: string) returns (r: Select<V>)
      ensures fresh(r) && r.Model() == Model().(orders := [Orders.Order(column, Orders.Desc)])
    {
      r := Order([Orders.Order(column, Orders.Desc)]);
    }

    /** Replaces the order list. */
    method Order(orders: seq<Orders.Order>) returns (r: Select<V>)
      ensures fresh(r) && r.Model() == Model().(orders := orders)
    {
      r := Clone();
      r.orders := orders;
    }

    method Limit(limit: int64) returns (r: Select<V>)
      ensures fresh(r) && r.Model() == Model().(limit := limit)
    {
      r := Clone();
      r.limit := limit;
    }

    method Offset(offset: int64) returns (r: Select<V>)
      ensures fresh(r) && r.Model() == Model().(offset := offset)
    {
      r := Clone();
      r.offset := offset;
    }

    /**
     * Renders the statement: the conditions one at a time, stopping at the
     * first that fails, then the orders, then the pagination.
     */
    method SQL() returns (sql: string, values: seq<V>, err: Option<Conditions.Error>)
      ensures Conditions.SqlResult(sql, values, err) == Compile(Model())
    {
      var sqlCols := "*";
      if |columns| > 0 {
        sqlCols := Join(", ", columns);
      }

      var sqlConds := "";
      values := [];
      if |conditions| > 0 {
        var conds, e;
        conds, values, e := RenderConditions(conditions);
        if e.Some? {
          return "", [], e;
        }
        sqlConds := " WHERE " + Join(" AND ", conds);
      }

      var sqlOrder := "";
      if |orders| > 0 {
        var terms := RenderOrders(orders);
        sqlOrder := " ORDER BY " + Join(", ", terms);
      }

      var sqlLimit := "";
      if limit > 0 {
        sqlLimit := " LIMIT " + Decimal(offset as int) + ", " + Decimal(limit as int);
      } else if offset > 0 {
        sqlLimit := " LIMIT " + Decimal(offset as int) + ", " + NoUpperBound;
      }

      sql := "SELECT " + sqlCols + " FROM " + table + sqlConds + sqlOrder + sqlLimit;
      err := None;
    }

    /** The statement Count sends: this query with the projection replaced by COUNT(*). */
    method CountSql() returns (sql: string, values: seq<V>, err: Option<Conditions.Error>)
      ensures Conditions.SqlResult(sql, values, err) == Compile(Model().(columns := ["COUNT(*)"]))
    {
      var q := Project(["COUNT(*)"]);
      sql, values, err := q.SQL();
    }

    /** Whether any order has been set. */
    predicate IsOrdered()
      reads this
      ensures IsOrdered() <==> OrderByClause(Model().orders) != ""
    {
      |orders| > 0
    }
  }
}
