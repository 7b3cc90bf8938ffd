/** Orders: one ORDER BY term, a column and a sort direction. */
module Orders {
  import opened Wrappers
  import opened Text

  /** OrderDirection and its two constants, OrderDirectionAsc and OrderDirectionDesc. */
  datatype Direction = Asc | Desc

  /** The keyword a direction prints as. */
  function DirectionSql(d: Direction): (s: string)
    ensures |s| > 0 && ' ' !in s && '?' !in s
  {
    match d
    case Desc => "DESC"
    case Asc => "ASC"
  }

  /** Reads a direction keyword back. */
  function ParseDirection(s: string): (d: Option<Direction>)
  {
    if s == "ASC" then Some(Asc) else if s == "DESC" then Some(Desc) else None
  }

  lemma DirectionRoundTrip(d: Direction)
    ensures ParseDirection(DirectionSql(d)) == Some(d)
    ensures DirectionSql(d) == "ASC" <==> d == Asc
  {
  }

  datatype Order = Order(column: string, direction: Direction)

  /** Order.SQL: the column, one space, the direction keyword. */
  function OrderSql(o: Order): (s: string)
    ensures |s| > |o.column| && s[..|o.column|] == o.column && s[|o.column|] == ' '
    ensures ' ' !in s[|o.column| + 1..] && ParseDirection(s[|o.column| + 1..]) == Some(o.direction)
  {
    var s := o.column + " " + DirectionSql(o.direction);
    assert s[|o.column| + 1..] == DirectionSql(o.direction);
    s
  }

  /** The position of the last space in s, if any. */
  function LastSpace(s: string): (r: Option<nat>)
    ensures r.Some? ==> r.value < |s| && s[r.value] == ' '
  {
    if s == [] then None
    else if s[|s| - 1] == ' ' then Some(|s| - 1)
    else LastSpace(s[..|s| - 1])
  }

  /**
   * Reads an ORDER BY term back: everything before the last space is the
   * column (which may itself contain spaces), the rest the direction.
   */
  function ParseOrder(s: string): Option<Order>
  {
    match LastSpace(s)
    case None => None
    case Some(i) =>
      match ParseDirection(s[i + 1..])
      case None => None
      case Some(d) => Some(Order(s[..i], d))
  }

  lemma {:induction false} LastSpaceBefore(prefix: string, suffix: string)
    requires ' ' !in suffix
    ensures LastSpace(prefix + " " + suffix) == Some(|prefix|)
    decreases |suffix|
  {
    var s := prefix + " " + suffix;
    if suffix != [] {
      var init := suffix[..|suffix| - 1];
      assert s[..|s| - 1] == prefix + " " + init;
      assert s[|s| - 1] == suffix[|suffix| - 1];
      LastSpaceBefore(prefix, init);
    }
  }

  /**
   * An order term can be read back from its SQL, so the rendering is
   * determined by, and determines, the column and the direction.
   */
  lemma OrderRoundTrip(o: Order)
    ensures ParseOrder(OrderSql(o)) == Some(o)
  {
    var s := OrderSql(o);
    var d := DirectionSql(o.direction);
    LastSpaceBefore(o.column, d);
    assert s[|o.column| + 1..] == d;
    assert s[..|o.column|] == o.column;
    DirectionRoundTrip(o.direction);
  }

  lemma OrderSqlInjective(o1: Order, o2: Order)
    ensures OrderSql(o1) == OrderSql(o2) <==> o1 == o2
  {
    OrderRoundTrip(o1);
    OrderRoundTrip(o2);
  }

  /** Each order's SQL, in argument order. */
  function Terms(orders: seq<Order>): (ts: seq<string>)
    ensures |ts| == |orders|
  {
    seq(|orders|, k requires 0 <= k < |orders| => OrderSql(orders[k]))
  }

  /** The ORDER BY list: the orders' SQL joined by ", ". */
  function OrderList(orders: seq<Order>): (s: string)
    ensures s == "" <==> orders == []
    ensures |orders| > 0 ==> OrderSql(orders[0]) <= s
  {
    if |orders| > 0 then JoinFirst(", ", Terms(orders)); Join(", ", Terms(orders))
    else Join(", ", Terms(orders))
  }

  /** Order terms over '?'-free columns bind nothing. */
  lemma OrderListPlain(orders: seq<Order>)
    requires forall k :: 0 <= k < |orders| ==> '?' !in orders[k].column
    ensures '?' !in OrderList(orders)
  {
    assert forall k :: 0 <= k < |orders| ==> '?' !in Terms(orders)[k];
    JoinPlain(", ", Terms(orders));
  }

  /** One more order adds ", " and its SQL at the end, after the earlier ones. */
  lemma OrderListAppend(orders: seq<Order>, o: Order)
    requires |orders| > 0
    ensures OrderList(orders + [o]) == OrderList(orders) + ", " + OrderSql(o)
  {
    assert Terms(orders + [o]) == Terms(orders) + [OrderSql(o)];
    JoinAppend(", ", Terms(orders), OrderSql(o));
  }
}
