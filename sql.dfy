/**
 * Parameterised SQL as the tools build it, and the database cursor as an
 * abstract function. Query text is a sequence of literal pieces and `?`
 * placeholders: a `Text` piece is literal SQL that holds no placeholder,
 * so the placeholders of a query are exactly its `Mark` pieces.
 */
module Sql {
  import opened Values

  datatype SqlPart = Text(sql: string) | Mark

  /** A statement and the parameters bound to its placeholders, in order. */
  datatype SqlQuery = SqlQuery(parts: seq<SqlPart>, params: seq<Json>)

  /** What `cursor.execute` followed by a fetch gives: the rows as tuples, or the database's error message. */
  datatype DbResult = Rows(rows: seq<seq<Json>>) | DbError(message: string)

  /** The SQLite database seen through one cursor. */
  type Db = SqlQuery -> DbResult

  /** The number of `?` placeholders. */
  function Placeholders(parts: seq<SqlPart>): nat {
    if parts == [] then 0 else (if parts[0].Mark? then 1 else 0) + Placeholders(parts[1..])
  }

  lemma {:induction false} PlaceholdersAppend(a: seq<SqlPart>, b: seq<SqlPart>)
    ensures Placeholders(a + b) == Placeholders(a) + Placeholders(b)
    decreases |a|
  {
    if a == [] {
      assert a + b == b;
    } else {
      assert (a + b)[1..] == a[1..] + b;
      PlaceholdersAppend(a[1..], b);
    }
  }

  /** A literal piece of SQL. */
  function Lit(sql: string): (r: seq<SqlPart>)
    ensures Placeholders(r) == 0
  {
    [Text(sql)]
  }

  /** One `?` placeholder. */
  function Param(): (r: seq<SqlPart>)
    ensures Placeholders(r) == 1
  {
    [Mark]
  }

  /** Every placeholder has exactly one bound parameter. */
  predicate WellFormed(q: SqlQuery) {
    Placeholders(q.parts) == |q.params|
  }

  /** `','.join(['?'] * n)`: `n` placeholders separated by commas. */
  function MarkList(n: nat): (r: seq<SqlPart>)
    ensures Placeholders(r) == n
    ensures n == 0 <==> r == []
  {
    if n == 0 then []
    else if n == 1 then Param()
    else
      PlaceholdersAppend(MarkList(n - 1), Lit(","));
      PlaceholdersAppend(MarkList(n - 1) + Lit(","), Param());
      MarkList(n - 1) + Lit(",") + Param()
  }

  /** `sep.join(items)` over pieces of SQL. */
  function JoinParts(items: seq<seq<SqlPart>>, sep: string): (r: seq<SqlPart>)
    decreases |items|
  {
    if items == [] then []
    else if |items| == 1 then items[0]
    else items[0] + [Text(sep)] + JoinParts(items[1..], sep)
  }

  /** The total number of placeholders of a list of pieces. */
  function PlaceholdersOfAll(items: seq<seq<SqlPart>>): nat
    decreases |items|
  {
    if items == [] then 0 else Placeholders(items[0]) + PlaceholdersOfAll(items[1..])
  }

  /** Joining with a literal separator adds no placeholder. */
  lemma {:induction false} JoinKeepsPlaceholders(items: seq<seq<SqlPart>>, sep: string)
    ensures Placeholders(JoinParts(items, sep)) == PlaceholdersOfAll(items)
    decreases |items|
  {
    if |items| == 1 {
      assert items[1..] == [];
    } else if |items| > 1 {
      JoinKeepsPlaceholders(items[1..], sep);
      PlaceholdersAppend(items[0] + [Text(sep)], JoinParts(items[1..], sep));
      PlaceholdersAppend(items[0], [Text(sep)]);
    }
  }

  lemma {:induction false} PlaceholdersOfAllAppend(a: seq<seq<SqlPart>>, b: seq<seq<SqlPart>>)
    ensures PlaceholdersOfAll(a + b) == PlaceholdersOfAll(a) + PlaceholdersOfAll(b)
    decreases |a|
  {
    if a == [] {
      assert a + b == b;
    } else {
      assert (a + b)[1..] == a[1..] + b;
      PlaceholdersOfAllAppend(a[1..], b);
    }
  }

  /** `row[i]` on a fetched tuple. */
  function Column(row: seq<Json>, i: nat): Outcome<Json> {
    if i < |row| then Returned(row[i]) else Raised("tuple index out of range")
  }
}
