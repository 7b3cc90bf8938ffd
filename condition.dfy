/**
 * Conditions: the WHERE-clause building blocks. Each renders to a SQL fragment,
 * the values bound to its '?' placeholders in order, and possibly an error.
 */
module Conditions {
  import opened Wrappers
  import opened Text

  /** A rendering failure; Go's stack annotations (errors.Trace) are not modelled. */
  datatype Error = Error(message: string)

  /** The (string, []interface{}, error) triple that SQL() returns; a nil slice is []. */
  datatype SqlResult<V> = SqlResult(sql: string, values: seq<V>, err: Option<Error>)

  /** What a failing SQL() returns: no fragment, no values, the error. */
  function Failed<V>(e: Error): SqlResult<V>
  {
    SqlResult("", [], Some(e))
  }

  /**
   * The Condition interface. Filter, Between and LogicOr are the
   * implementations the package ships; Custom stands for any other
   * implementation of the open interface, whose SQL() gives a fixed result.
   */
  datatype Condition<V> =
    | Filter(column: string, value: V)
    | Between(column: string, valueBefore: V, valueAfter: V)
    | LogicOr(conditions: seq<Condition<V>>)
    | Custom(result: SqlResult<V>)

  /** The fragment, values and error a condition renders to. */
  function Sql<V>(c: Condition<V>): SqlResult<V>
    decreases c
  {
    match c
    case Filter(column, value) => SqlResult(column + " ?", [value], None)
    case Between(column, before, after) => SqlResult(column + " BETWEEN ? AND ?", [before, after], None)
    case LogicOr(cs) => Disjunction(seq(|cs|, k requires 0 <= k < |cs| => Sql(cs[k])))
    case Custom(r) => r
  }

  /** The results of rendering each condition of a list, in order. */
  function Results<V>(cs: seq<Condition<V>>): (rs: seq<SqlResult<V>>)
    ensures |rs| == |cs|
    ensures forall k :: 0 <= k < |cs| ==> rs[k] == Sql(cs[k])
  {
    seq(|cs|, k requires 0 <= k < |cs| => Sql(cs[k]))
  }

  /** The error of the first failing result, if any. */
  function FirstError<V>(rs: seq<SqlResult<V>>): Option<Error>
  {
    if rs == [] then None else if rs[0].err.Some? then rs[0].err else FirstError(rs[1..])
  }

  predicate AllOk<V>(rs: seq<SqlResult<V>>)
  {
    forall k :: 0 <= k < |rs| ==> rs[k].err == None
  }

  /** There is a first error exactly when some result failed. */
  lemma {:induction false} FirstErrorNone<V>(rs: seq<SqlResult<V>>)
    ensures FirstError(rs) == None <==> AllOk(rs)
  {
    if rs != [] {
      FirstErrorNone(rs[1..]);
      assert forall k :: 1 <= k < |rs| ==> rs[k] == rs[1..][k - 1];
    }
  }

  /** The first failing result decides the error; what follows it does not matter. */
  lemma {:induction false} FirstErrorAt<V>(rs: seq<SqlResult<V>>, i: nat)
    requires i < |rs| && AllOk(rs[..i]) && rs[i].err.Some?
    ensures FirstError(rs) == rs[i].err
  {
    if i > 0 {
      assert rs[0] == rs[..i][0];
      assert rs[1..][..i - 1] == rs[..i][1..];
      FirstErrorAt(rs[1..], i - 1);
    }
  }

  function Fragments<V>(rs: seq<SqlResult<V>>): (ss: seq<string>)
    ensures |ss| == |rs|
  {
    seq(|rs|, k requires 0 <= k < |rs| => rs[k].sql)
  }

  function Parenthesized(ss: seq<string>): (ps: seq<string>)
    ensures |ps| == |ss|
  {
    seq(|ss|, k requires 0 <= k < |ss| => "(" + ss[k] + ")")
  }

  /** The values of all results, concatenated in order. */
  function AllValues<V>(rs: seq<SqlResult<V>>): seq<V>
  {
    if rs == [] then [] else AllValues(rs[..|rs| - 1]) + rs[|rs| - 1].values
  }

  /** LogicOr's combination of its children's results. */
  function Disjunction<V>(rs: seq<SqlResult<V>>): SqlResult<V>
  {
    match FirstError(rs)
    case Some(e) => Failed(e)
    case None => SqlResult(Join(" OR ", Parenthesized(Fragments(rs))), AllValues(rs), None)
  }

  /**
   * The SQL() methods of the three implementations (and the fixed result of
   * any other one); LogicOr renders its children one at a time and stops at
   * the first that fails.
   */
  method Render<V>(c: Condition<V>) returns (sql: string, values: seq<V>, err: Option<Error>)
    ensures SqlResult(sql, values, err) == Sql(c)
    decreases c
  {
    match c {
      case Filter(column, value) =>
        sql, values, err := column + " ?", [value], None;
      case Between(column, before, after) =>
        sql, values, err := column + " BETWEEN ? AND ?", [before, after], None;
      case Custom(r) =>
        sql, values, err := r.sql, r.values, r.err;
      case LogicOr(cs) =>
        ghost var rs := Results(cs);
        var parts: seq<string> := [];
        values := [];
        for i := 0 to |cs|
          invariant AllOk(rs[..i])
          invariant parts == Parenthesized(Fragments(rs[..i]))
          invariant values == AllValues(rs[..i])
        {
          var s, vs, e := Render(cs[i]);
          if e.Some? {
            FirstErrorAt(rs, i);
            return "", [], e;
          }
          assert rs[..i + 1][..i] == rs[..i];
          parts := parts + ["(" + s + ")"];
          values := values + vs;
        }
        assert rs[..|cs|] == rs;
        FirstErrorNone(rs);
        sql, err := Join(" OR ", parts), None;
    }
  }

  /** LogicOr renders the results of its children, in child order. */
  lemma SqlLogicOr<V>(cs: seq<Condition<V>>)
    ensures Sql(LogicOr(cs)) == Disjunction(Results(cs))
  {
    assert Results(cs) == seq(|cs|, k requires 0 <= k < |cs| => Sql(cs[k]));
  }

  /** LogicOr fails exactly when one of its children fails, and then yields no SQL and no values. */
  lemma LogicOrFails<V>(cs: seq<Condition<V>>)
    ensures Sql(LogicOr(cs)).err.Some? <==> exists k :: 0 <= k < |cs| && Sql(cs[k]).err.Some?
    ensures Sql(LogicOr(cs)).err.Some? ==> Sql(LogicOr(cs)).sql == "" && Sql(LogicOr(cs)).values == []
  {
    SqlLogicOr(cs);
    FirstErrorNone(Results(cs));
  }

  /**
   * The first failing child decides the error; the children after it are
   * never looked at, so dropping them changes nothing.
   */
  lemma LogicOrFirstFailure<V>(cs: seq<Condition<V>>, i: nat)
    requires i < |cs| && Sql(cs[i]).err.Some?
    requires forall k :: 0 <= k < i ==> Sql(cs[k]).err == None
    ensures Sql(LogicOr(cs)) == Failed(Sql(cs[i]).err.value)
    ensures Sql(LogicOr(cs)) == Sql(LogicOr(cs[..i + 1]))
  {
    var prefix := cs[..i + 1];
    SqlLogicOr(cs);
    SqlLogicOr(prefix);
    assert Results(cs)[..i] == Results(prefix)[..i];
    FirstErrorAt(Results(cs), i);
    FirstErrorAt(Results(prefix), i);
  }

  /** LogicOr of no conditions renders an empty fragment, binds nothing and does not fail. */
  lemma LogicOrEmpty<V>()
    ensures Sql<V>(LogicOr([])) == SqlResult("", [], None)
  {
    SqlLogicOr<V>([]);
  }

  /** Even a single child is parenthesised. */
  lemma LogicOrSingle<V>(c: Condition<V>)
    requires Sql(c).err == None
    ensures Sql(LogicOr([c])) == SqlResult("(" + Sql(c).sql + ")", Sql(c).values, None)
  {
    var rs := Results([c]);
    SqlLogicOr([c]);
    FirstErrorNone(rs);
    assert Parenthesized(Fragments(rs)) == ["(" + Sql(c).sql + ")"];
    assert rs == [] + [Sql(c)];
    AllValuesAppend([], Sql(c));
  }

  lemma ResultsAppend<V>(cs: seq<Condition<V>>, c: Condition<V>)
    ensures Results(cs + [c]) == Results(cs) + [Sql(c)]
  {
  }

  lemma FragmentsAppend<V>(rs: seq<SqlResult<V>>, r: SqlResult<V>)
    ensures Fragments(rs + [r]) == Fragments(rs) + [r.sql]
  {
  }

  lemma AllValuesAppend<V>(rs: seq<SqlResult<V>>, r: SqlResult<V>)
    ensures AllValues(rs + [r]) == AllValues(rs) + r.values
  {
    assert (rs + [r])[..|rs|] == rs;
  }

  /** Results of one more child: the disjunction grows at its end. */
  lemma DisjunctionAppend<V>(rs: seq<SqlResult<V>>, r: SqlResult<V>)
    requires |rs| > 0 && AllOk(rs) && r.err == None
    ensures Disjunction(rs + [r]) ==
      SqlResult(Disjunction(rs).sql + " OR (" + r.sql + ")", Disjunction(rs).values + r.values, None)
  {
    var ps := Parenthesized(Fragments(rs));
    FirstErrorNone(rs);
    FirstErrorNone(rs + [r]);
    ParenthesizedAppend(rs, r);
    JoinAppend(" OR ", ps, "(" + r.sql + ")");
    AllValuesAppend(rs, r);
  }

  lemma ParenthesizedAppend<V>(rs: seq<SqlResult<V>>, r: SqlResult<V>)
    ensures Parenthesized(Fragments(rs + [r])) == Parenthesized(Fragments(rs)) + ["(" + r.sql + ")"]
  {
    FragmentsAppend(rs, r);
  }

  /**
   * One more successful child adds " OR (" + its fragment + ")" to the
   * fragment and its values after the values so far.
   */
  lemma LogicOrAppend<V>(cs: seq<Condition<V>>, d: Condition<V>)
    requires |cs| > 0 && Sql(LogicOr(cs)).err == None && Sql(d).err == None
    ensures Sql(LogicOr(cs + [d])) ==
      SqlResult(Sql(LogicOr(cs)).sql + " OR (" + Sql(d).sql + ")", Sql(LogicOr(cs)).values + Sql(d).values, None)
  {
    SqlLogicOr(cs);
    SqlLogicOr(cs + [d]);
    assert Results(cs + [d]) == Results(cs) + [Sql(d)];
    FirstErrorNone(Results(cs));
    DisjunctionAppend(Results(cs), Sql(d));
  }

  /** Built only from the package's own Filter, Between and LogicOr. */
  predicate Builtin<V>(c: Condition<V>)
    decreases c
  {
    match c
    case Filter(_, _) => true
    case Between(_, _, _) => true
    case LogicOr(cs) => forall k :: 0 <= k < |cs| ==> Builtin(cs[k])
    case Custom(_) => false
  }

  /** No column string anywhere in the condition contains a '?'. */
  predicate PlainColumns<V>(c: Condition<V>)
    decreases c
  {
    match c
    case Filter(column, _) => '?' !in column
    case Between(column, _, _) => '?' !in column
    case LogicOr(cs) => forall k :: 0 <= k < |cs| ==> PlainColumns(cs[k])
    case Custom(_) => true
  }

  /**
   * For every column, Filter renders "<column> ?" binding its value and
   * Between "<column> BETWEEN ? AND ?" binding its two bounds in order;
   * neither fails.
   */
  lemma FilterAndBetweenRender<V>(column: string, value: V, before: V, after: V)
    ensures Sql(Filter(column, value)) == SqlResult(column + " ?", [value], None)
    ensures Sql(Between(column, before, after)) == SqlResult(column + " BETWEEN ? AND ?", [before, after], None)
  {
  }

  /** With a '?'-free column, Filter has one placeholder per bound value and Between two. */
  lemma FilterAndBetween<V>(column: string, value: V, before: V, after: V)
    requires '?' !in column
    ensures Placeholders(Sql(Filter(column, value)).sql) == |Sql(Filter(column, value)).values| == 1
    ensures Placeholders(Sql(Between(column, before, after)).sql) == |Sql(Between(column, before, after)).values| == 2
  {
    FilterAndBetweenRender(column, value, before, after);
    PlaceholdersZero(column);
    PlaceholdersConcat(column, " ?");
    BetweenPlaceholders();
    PlaceholdersConcat(column, " BETWEEN ? AND ?");
  }

  /** The placeholder counts of the two fixed fragments Filter and Between append. */
  lemma BetweenPlaceholders()
    ensures Placeholders(" ?") == 1
    ensures Placeholders(" BETWEEN ? AND ?") == 2
  {
    BetweenCount();
    assert " BETWEEN " + "?" + " AND " + "?" == " BETWEEN ? AND ?";
  }

  lemma BetweenCount()
    ensures Placeholders(" BETWEEN " + "?" + " AND " + "?") == 2
  {
    PlaceholdersZero(" BETWEEN ");
    PlaceholdersZero(" AND ");
    PlaceholdersConcat(" BETWEEN ", "?");
    PlaceholdersConcat(" BETWEEN " + "?", " AND ");
    PlaceholdersConcat(" BETWEEN " + "?" + " AND ", "?");
  }

  /** A condition built from Filter, Between and LogicOr never fails. */
  lemma {:induction false} BuiltinNeverFails<V>(c: Condition<V>)
    requires Builtin(c)
    ensures Sql(c).err == None
    decreases c
  {
    if c.LogicOr? {
      var rs := Results(c.conditions);
      forall k | 0 <= k < |rs|
        ensures rs[k].err == None
      {
        BuiltinNeverFails(c.conditions[k]);
      }
      FirstErrorNone(rs);
      SqlLogicOr(c.conditions);
    }
  }

  /** Fragments whose placeholders match their values join to a list that does too. */
  lemma {:induction false} PlaceholdersOfResults<V>(rs: seq<SqlResult<V>>)
    requires forall k :: 0 <= k < |rs| ==> Placeholders(rs[k].sql) == |rs[k].values|
    ensures SumPlaceholders(Fragments(rs)) == |AllValues(rs)|
    ensures SumPlaceholders(Parenthesized(Fragments(rs))) == |AllValues(rs)|
  {
    if rs != [] {
      var n := |rs|;
      var init := rs[..n - 1];
      PlaceholdersOfResults(init);
      assert Fragments(rs)[..n - 1] == Fragments(init);
      assert Parenthesized(Fragments(rs))[..n - 1] == Parenthesized(Fragments(init));
      PlaceholdersConcat("(", rs[n - 1].sql);
      PlaceholdersConcat("(" + rs[n - 1].sql, ")");
    }
  }

  /**
   * Filter renders one placeholder and Between two; a LogicOr of such
   * conditions as many as it binds values, provided no column holds a '?'.
   */
  lemma {:induction false} PlaceholdersMatchValues<V>(c: Condition<V>)
    requires Builtin(c) && PlainColumns(c)
    ensures Sql(c).err == None
    ensures Placeholders(Sql(c).sql) == |Sql(c).values|
    decreases c
  {
    BuiltinNeverFails(c);
    match c
    case Filter(column, v) =>
      FilterAndBetween(column, v, v, v);
    case Between(column, a, b) =>
      FilterAndBetween(column, a, a, b);
    case LogicOr(cs) =>
      var rs := Results(cs);
      forall k | 0 <= k < |rs|
        ensures Placeholders(rs[k].sql) == |rs[k].values|
      {
        PlaceholdersMatchValues(cs[k]);
      }
      PlaceholdersOfResults(rs);
      PlaceholdersJoin(" OR ", Parenthesized(Fragments(rs)));
      SqlLogicOr(cs);
      FirstErrorNone(rs);
  }
}
