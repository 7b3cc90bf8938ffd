/**
 * Inserts: the immutable INSERT builder. Col adds a column together with its
 * value; SQL() renders one placeholder per column.
 */
module Inserts {
  import opened Text

  /** The placeholder list of n columns, "?, ?, ..., ?", built as a join. */
  function PlaceholderList(n: nat): string
  {
    Join(", ", seq(n, _ => "?"))
  }

  /**
   * Go builds the placeholder list as n - 1 copies of "?, " and a final "?";
   * that is the join of n placeholders.
   */
  lemma {:induction false} RepeatIsJoin(n: nat)
    requires n >= 1
    ensures Repeat("?, ", n - 1) + "?" == PlaceholderList(n)
  {
    if n > 1 {
      RepeatIsJoin(n - 1);
      assert seq(n, _ => "?") == seq(n - 1, _ => "?") + ["?"];
      JoinAppend(", ", seq(n - 1, _ => "?"), "?");
    }
  }

  class Insert<V> {
    var table: string
    var columns: seq<string>
    var values: seq<V>

    /** Columns and values are only ever added in pairs. */
    ghost predicate Valid()
      reads this
    {
      |columns| == |values|
    }

    /** NewInsert: a builder over the table with no columns. */
    constructor (table: string)
      ensures Valid()
      ensures this.table == table && columns == [] && values == []
    {
      this.table := table;
      columns := [];
      values := [];
    }

    method Clone() returns (r: Insert<V>)
      ensures fresh(r)
      ensures r.table == table && r.columns == columns && r.values == values
    {
      r := new Insert(table);
      r.columns, r.values := columns, values;
    }

    /** Adds the column and its value at the end; the receiver is left as it was. */
    method Col(column: string, value: V) returns (r: Insert<V>)
      requires Valid()
      ensures fresh(r) && r.Valid()
      ensures r.table == table && r.columns == columns + [column] && r.values == values + [value]
    {
      r := Clone();
      r.columns := r.columns + [column];
      r.values := r.values + [value];
    }

    /**
     * The statement and its values. With no column Go's strings.Repeat is
     * given a count of -1 and panics, so at least one column is required.
     */
    function SQL(): (r: (string, seq<V>))
      reads this
      requires |columns| >= 1
      ensures r.0 == "INSERT INTO " + table + "(" + Join(", ", columns) + ") VALUES (" + PlaceholderList(|columns|) + ")"
      ensures r.1 == values
    {
      RepeatIsJoin(|columns|);
      ("INSERT INTO " + table + "(" + Join(", ", columns) + ") VALUES (" + Repeat("?, ", |columns| - 1) + "?)", values)
    }

    /**
     * One placeholder per column, and so per value, when neither the table
     * nor a column name holds a '?'.
     */
    lemma SQLPlaceholders()
      requires Valid() && |columns| >= 1
      requires '?' !in table && forall k :: 0 <= k < |columns| ==> '?' !in columns[k]
      ensures Placeholders(SQL().0) == |columns| == |SQL().1|
    {
      var n := |columns|;
      var prefix := "INSERT INTO " + table + "(" + Join(", ", columns) + ") VALUES (";
      JoinPlain(", ", columns);
      PlaceholdersZero(prefix);
      assert Placeholders("?, ") == 1;
      PlaceholdersRepeat("?, ", n - 1);
      PlaceholdersConcat(prefix, Repeat("?, ", n - 1));
      PlaceholdersConcat(prefix + Repeat("?, ", n - 1), "?)");
      assert SQL().0 == prefix + Repeat("?, ", n - 1) + "?)";
    }
  }
}
