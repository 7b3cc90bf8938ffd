# A verified model of the `query` SQL builder

`query` (altipla-consulting/query) is a small Go package for building
parameterised SQL statements by chaining calls:

- **Conditions** render to a fragment with `?` placeholders and the values bound to them, in order. `Filter("foo =", v)` renders `foo = ?`. `Between` renders `col BETWEEN ? AND ?`. `LogicOr` renders its children parenthesised and joined by ` OR `.
- **`Select`** is an immutable builder. `SQL()` assembles `SELECT cols FROM table`, then a ` WHERE` conjunction, then ` ORDER BY`, then a MySQL-style ` LIMIT offset, count`.
- **`Insert`** is an immutable builder. `SQL()` renders `INSERT INTO t(cols) VALUES (?, …)` with one placeholder per column.

The model keeps the source's form:

- Code that is a single expression becomes a function:
  - `Filter.SQL`, `Between.SQL` and `Order.SQL`;
  - `Insert.SQL`;
  - the clause-building parts of `Select.SQL`.
- Code that loops becomes a method proved equal to a specification function:
  - `LogicOr.SQL` becomes `Conditions.Render`, proved equal to `Conditions.Sql`;
  - `Select.SQL` becomes `Selects.Select.SQL`, proved equal to `Selects.Compile`.
- The two builders become classes whose configuration methods return a `fresh` object and leave the receiver unchanged.

Files:

| file | module | models |
|---|---|---|
| `wrappers.dfy` | `Wrappers` | `Option` |
| `text.dfy` | `Text` | the Go library functions the builders call: `strings.Join`, `strings.Repeat`, `%d`. Also a count of `?` placeholders. |
| `condition.dfy` | `Conditions` | `condition.go` |
| `order.dfy` | `Orders` | `order.go` |
| `select.dfy` | `Selects` | `select.go` |
| `insert.dfy` | `Inserts` | `insert.go` |
| `builder_tests.dfy` | `BuilderTests` | the scenarios of `select_test.go` and `insert_test.go` as lemmas, plus client methods that chain the builders |

How Go constructs are represented:

- Go's `(string, []interface{}, error)` triple is the datatype `SqlResult(sql, values, err)`. A nil slice is the empty sequence.
- Bound values have a type parameter `V`. The tests use `Scalar`, which is either a string or an integer.
- The open `Condition` interface is a datatype with one variant per implementation the package ships. An extra variant, `Custom(result)`, stands for any other implementation, whose `SQL()` returns a fixed result. It is the only way a condition can fail.
- `errors.Trace` only annotates an error, so the error is passed through unchanged.

## Model

| member | source | states |
|---|---|---|
| Conditions.Render | condition.go:23-62 | The SQL() of Filter, Between and LogicOr. LogicOr renders its children one at a time and returns at the first error. The result equals the specification `Sql`. |
| Conditions.FilterAndBetween | condition.go:23-39 | With a `?`-free column, Filter's fragment holds exactly one placeholder for its one value and Between's exactly two for its two values. |
| Conditions.LogicOrFails | condition.go:49-62 | LogicOr fails if and only if one of its children fails. A failure returns no SQL and no values. |
| Conditions.LogicOrFirstFailure | condition.go:52-56 | The first failing child's error is what LogicOr returns. The children after it do not matter: the result equals the LogicOr of the prefix up to that child. |
| Conditions.LogicOrEmpty | condition.go:49-61 | LogicOr of no conditions renders "", binds nothing and succeeds. |
| Conditions.LogicOrSingle | condition.go:57-61 | Even a single child is parenthesised: `(fragment)`, with the child's values. |
| Conditions.LogicOrAppend | condition.go:52-61 | One more successful child adds ` OR (fragment)` at the end of the SQL and its values after the earlier values. |
| Conditions.BuiltinNeverFails | condition.go:23-62 | A condition built only from Filter, Between and LogicOr never fails. |
| Conditions.PlaceholdersMatchValues | condition.go:23-62 | For such a condition with `?`-free columns, the number of `?` in the fragment equals the number of bound values. |
| Orders.DirectionSql | order.go:16-21 | The two direction keywords are non-empty and hold no space and no `?`. |
| Orders.DirectionRoundTrip | order.go:18-21 | `ASC` and `DESC` read back as the direction they came from. |
| Orders.OrderSql | order.go:12-14 | `Order.SQL`: the column, then one space, then a space-free keyword that reads back as the order's direction. Its partner lemmas are OrderRoundTrip and OrderSqlInjective. |
| Orders.OrderRoundTrip | order.go:12-14 | An order's SQL (column, one space, keyword) parses back to the same column and direction, even when the column holds spaces. |
| Orders.OrderSqlInjective | order.go:12-14 | Two orders render the same term if and only if they are equal. |
| Orders.OrderList | select.go:102-106 | The ORDER BY list built by the orders loop: empty if and only if there are no orders, and otherwise starting with the first order's term. Its partner lemma is OrderListAppend. |
| Orders.OrderListAppend | select.go:100-107 | One more order adds `, ` and its term at the end of the ORDER BY list. |
| Selects.Projection | select.go:79-82 | No columns gives `*`. `?`-free columns give a `?`-free projection. |
| Selects.WhereClause | select.go:84-98 | The WHERE clause is empty if and only if there are no conditions. |
| Selects.OrderByClause | select.go:100-107 | The ORDER BY clause is empty if and only if there are no orders. |
| Selects.LimitClause | select.go:109-114 | The LIMIT clause is empty if and only if both limit and offset are <= 0. It never holds a placeholder. |
| Selects.Compile | select.go:78-117 | A failure carries no SQL and no values. A success starts with `SELECT cols FROM table`. |
| Selects.CompileOk | select.go:78-117 | When every condition renders, the statement is head, then WHERE, then ORDER BY, then LIMIT, in that order. The values are the conditions' values, concatenated in order. |
| Selects.CompileUnconditional | select.go:84-98 | A builder without conditions gets no WHERE clause and binds no values. |
| Selects.CompileFails | select.go:88-92 | The statement fails if and only if one of its conditions fails. |
| Selects.CompileFirstFailure | select.go:88-92 | The first failing condition's error is returned, with no SQL and no values. |
| Selects.ConditionAccumulates | select.go:46-50 | Adding a condition extends the WHERE clause with ` AND fragment`, or starts it. Its values follow the old ones. The rest of the statement is unchanged. |
| Selects.CompilePlaceholders | select.go:78-117 | A builder with only built-in conditions and no `?` in its own strings renders exactly one placeholder per bound value. |
| Selects.Select.constructor | select.go:21-23 | NewSelect: the table, with no columns, conditions or orders, and limit and offset 0. |
| Selects.Select.Clone | select.go:25-34 | A fresh builder with the same fields. |
| Selects.Select.Project | select.go:36-40 | A fresh builder whose columns are replaced. Nothing else changes. |
| Selects.Select.Filter | select.go:42-44 | A fresh builder with `Filter(column, value)` appended to the conditions. |
| Selects.Select.Condition | select.go:46-50 | A fresh builder with the condition appended. Earlier conditions are kept. |
| Selects.Select.SortAsc | select.go:52-54 | A fresh builder whose orders are just `column ASC`. Earlier orders are dropped. |
| Selects.Select.SortDesc | select.go:56-58 | A fresh builder whose orders are just `column DESC`. Earlier orders are dropped. |
| Selects.Select.Order | select.go:60-64 | A fresh builder whose orders are replaced by the arguments, in argument order. |
| Selects.Select.Limit | select.go:66-70 | A fresh builder with only the limit changed. |
| Selects.Select.Offset | select.go:72-76 | A fresh builder with only the offset changed. |
| Selects.RenderConditions | select.go:86-96 | The conditions loop: the error is the first failing condition's error. Without one, the fragments and the concatenated values are those of all conditions, in order. With one, nothing is collected. |
| Selects.RenderOrders | select.go:101-105 | The orders loop: the terms of all orders, in argument order (`Orders.Terms`). |
| Selects.Select.SQL | select.go:78-117 | Projection, then the conditions loop with an early return on the first failure, then the orders loop, then the LIMIT policy. The result equals `Compile` of the builder's fields. |
| Selects.Select.CountSql | select.go:150-152 | The statement Count sends: this query with the projection replaced by `COUNT(*)`. |
| Selects.Select.IsOrdered | select.go:165-167 | True if and only if the statement gets an ORDER BY clause. |
| Inserts.RepeatIsJoin | insert.go:38-39 | n - 1 copies of `?, ` followed by `?` equal the join of n placeholders with `, `. |
| Inserts.Insert.constructor | insert.go:17-19 | NewInsert: the table, with no columns and no values. Columns and values have equal length. |
| Inserts.Insert.Clone | insert.go:21-27 | A fresh builder with the same fields. |
| Inserts.Insert.Col | insert.go:29-34 | A fresh builder with the column and its value appended together. Columns and values keep equal length. |
| Inserts.Insert.SQL | insert.go:36-40 | `INSERT INTO table(c1, c2, …) VALUES (?, ?, …)` with one `?` per column, and the values in column order. |
| Inserts.Insert.SQLPlaceholders | insert.go:36-40 | With a `?`-free table and columns, the statement holds exactly one placeholder per column and per value. |
| Text.PlaceholdersJoin | select.go:97 | Joining with a `?`-free separator adds no placeholder: the join holds the sum of its parts' placeholders. |
| Text.PlaceholdersRepeat | insert.go:38 | n copies of a one-placeholder string hold n placeholders. |
| Text.Decimal | select.go:110-113 | The `%d` form of an integer: non-empty, with no `?`, and starting with `-` if and only if the integer is negative. |
| Text.NatDecimal | select.go:110-113 | The digits `%d` prints for a magnitude: non-empty, all decimal digits, and no leading zero unless the value is 0. |
| Text.DecimalRoundTrip | select.go:110-113 | The `%d` rendering of any integer, negative ones included, reads back as that integer. |
| BuilderTests.SimpleSelect | select_test.go:11-18 | `SELECT * FROM foo_table`, with no values. |
| BuilderTests.ProjectColumns | select_test.go:20-27 | On the columns field that `Project("foo", "bar")` sets: `SELECT foo, bar FROM foo_table`. |
| BuilderTests.FilterColumn | select_test.go:29-36 | `… WHERE foo = ?`, binding "bar". |
| BuilderTests.FilterMultipleColumns | select_test.go:38-45 | `… WHERE foo = ? AND baz = ?`, binding "bar" then "qux". |
| BuilderTests.BetweenFilter | select_test.go:47-54 | On the conditions field that `Condition(Between(…))` sets: `… WHERE foo BETWEEN ? AND ?`, binding "bar" then "baz". |
| BuilderTests.SortAsc | select_test.go:56-63 | On the orders field that `SortAsc("foo")` sets: `… ORDER BY foo ASC`. |
| BuilderTests.SortDesc | select_test.go:65-72 | On the orders field that `SortDesc("foo")` sets: `… ORDER BY foo DESC`. |
| BuilderTests.MultipleSorts | select_test.go:74-81 | On the orders field that `Order(…)` sets: `… ORDER BY foo DESC, bar ASC`. |
| BuilderTests.Limit | select_test.go:83-90 | On the limit field that `Limit(10)` sets: `… LIMIT 0, 10`. |
| BuilderTests.Offset | select_test.go:92-99 | On the offset field that `Offset(40)` sets: `… LIMIT 40, 18446744073709551615`. |
| BuilderTests.OffsetAndLimit | select_test.go:101-108 | On the limit and offset fields that `Limit(10).Offset(40)` sets: `… LIMIT 40, 10`. |
| BuilderTests.AlternativeConditions | select_test.go:110-117 | On the conditions field that `Condition(LogicOr(…))` sets: `… WHERE (foo = ?) OR (baz = ?)`, binding "bar" then 3. |
| BuilderTests.NestedFailure | condition.go:53-56 | A failing condition nested in a LogicOr fails the whole statement with its error and no SQL. |
| BuilderTests.ChainFilters | select_test.go:38-45 | Two chained `Filter` calls on a fresh builder: each call leaves its receiver as it was, and the last builder renders `… WHERE foo = ? AND baz = ?` binding "bar" then "qux". |
| BuilderTests.ChainOrders | select_test.go:74-81 | `SortAsc` then `Order` on a fresh builder: the fresh builder is not ordered, the sorted one is, and `Order` replaces the earlier order, so the last builder renders `… ORDER BY foo DESC, bar ASC` with no values and no error. |
| BuilderTests.ChainPagination | select_test.go:83-108 | `Limit(10)` then `Offset(40)` on a fresh builder: the first builder renders `… LIMIT 0, 10` and the second `… LIMIT 40, 10`. |
| BuilderTests.InsertColumns | insert_test.go:11-20 | Three chained `Col` calls render `INSERT INTO foo_table(foo, bar, baz) VALUES (?, ?, ?)`, binding the three values in column order. |

## Left out

- `Select.GetAll` (select.go:119-148): database I/O and reflection-based row mapping.
- `Select.Count` (select.go:150-163): only the statement it sends is modelled (`CountSql`). Running it and scanning the count are database I/O.
- `Insert.Exec` (insert.go:42-50): database I/O.
- `errors.Trace` and `errors.Annotate`: they add stack information to an error. The model passes the error through unchanged.
- Go slice aliasing. `Clone` copies slice headers, not their backing arrays (select.go:25-34, insert.go:21-27). `append` in `Condition` and `Col` (select.go:48, insert.go:31-32) can then write into an array shared with the parent. Two builders derived from the same parent with spare capacity can therefore overwrite each other's last element. The model keeps each builder's lists as immutable sequences, so each derivation is independent. The variadic setters also keep the caller's slice itself: `result.columns = columns` (select.go:38), `result.orders = orders` (select.go:62) and `&logicOrImpl{conditions}` (condition.go:46). A caller who changes that slice after `Project(cols...)`, `Order(orders...)` or `LogicOr(conds...)` therefore changes the builder's SQL. The model copies every argument sequence by value. The package's tests only build single chains from a fresh builder with literal arguments, so they give the same results under both semantics.
- `OrderDirection` is a Go string type, so a caller can convert any string to it. The model has only the two constants `OrderDirectionAsc` and `OrderDirectionDesc`, as the `Direction` datatype. The round-trip lemmas depend on that.
- Bound values are dynamically typed in Go (`interface{}`). Here they are a type parameter, so how the driver treats a value is not modelled.
- Nil and empty slices are not distinguished. Go's `SQL()` returns a nil slice on error and an empty one otherwise; both are the empty sequence here.
- Inserts.Insert.SQL: requires at least one column. With none, Go's `strings.Repeat` receives -1 and panics; a panic is not modelled as a result.
- Inserts.Insert.Col: requires `Valid()` (as many columns as values). Every builder made by the constructor and `Col` satisfies it, but Go does not check it.
- Text.PlaceholdersRepeat: stated only for a string holding exactly one placeholder, which is the only way `Insert.SQL` uses `strings.Repeat`.
- 64-bit `limit` and `offset`: the model gives them the same range through the `int64` newtype. No arithmetic is done on them, so there is no wrap-around to model.
