/**
 * An abstract stand-in for the gorm query builder and the relational store it
 * talks to. A query is a record of what the builder calls have accumulated:
 * the table, the projection, the WHERE predicates (ANDed), the JOINs, the ORDER
 * BY clause texts, OFFSET, LIMIT and the associations to preload.
 *
 * The meaning of a query is given in two parts, as in SQL: a static check that
 * every column a predicate names belongs to a table in scope (otherwise the
 * statement fails as a whole), and a truth value of every predicate on a tuple
 * of rows. LIKE is left uninterpreted: it is the parameter `like`.
 */
module Gorm {
  import opened Wrappers

  datatype Value = IntValue(i: int) | TextValue(s: string)

  /** A column qualified by its table, as in "food_categories.id". */
  datatype Column = Column(table: string, name: string)

  datatype Predicate =
      /** column = value */
    | Equals(column: Column, value: Value)
      /** column LIKE pattern */
    | Like(column: Column, pattern: string)
      /** column IN (subquery), the subquery projecting one column of its own table */
    | In(column: Column, subquery: Query)

  /** JOIN table ON left = right */
  datatype Join = Join(table: string, left: Column, right: Column)

  datatype Query = Query(
    from: Option<string>,
    projection: seq<string>,
    wheres: seq<Predicate>,
    joins: seq<Join>,
    orders: seq<string>,
    offset: Option<int>,
    limit: Option<int>,
    preloads: seq<string>)

  /** A fresh session: config.GetInstance(ctx) before any builder call. */
  const Session: Query := Query(None, [], [], [], [], None, None, [])

  // ------------------------------------------------------------ builder calls

  function Where(q: Query, p: Predicate): Query {
    q.(wheres := q.wheres + [p])
  }

  /** Where with a struct value: all of its conditions at once. */
  function WhereAll(q: Query, ps: seq<Predicate>): Query {
    q.(wheres := q.wheres + ps)
  }

  function Joins(q: Query, j: Join): Query {
    q.(joins := q.joins + [j])
  }

  /** Order appends a clause; Offset and Limit replace any earlier value. */
  function Order(q: Query, clause: string): Query {
    q.(orders := q.orders + [clause])
  }

  function Offset(q: Query, n: int): Query {
    q.(offset := Some(n))
  }

  function Limit(q: Query, n: int): Query {
    q.(limit := Some(n))
  }

  function Table(q: Query, name: string): Query {
    q.(from := Some(name))
  }

  function Select(q: Query, columns: seq<string>): Query {
    q.(projection := columns)
  }

  function Preload(q: Query, association: string): Query {
    q.(preloads := q.preloads + [association])
  }

  /**
   * The condition gorm adds for a model value with a non-zero primary key, in
   * Find(&value) and Delete(value): table.column = id.
   */
  function PrimaryKeyCondition(table: string, column: string, id: int): seq<Predicate> {
    if id != 0 then [Equals(Column(table, column), IntValue(id))] else []
  }

  /** The table a statement runs on: the one named by Table, else the model's. */
  function Target(q: Query, model: string): string {
    q.from.GetOr(model)
  }

  // --------------------------------------------------------------- resolution

  /** For every table, the names of its columns. */
  type Schema = map<string, set<string>>

  predicate ColumnResolves(schema: Schema, scope: set<string>, c: Column) {
    c.table in scope && c.table in schema && c.name in schema[c.table]
  }

  /**
   * Every column the predicate names exists in a table in scope; a subquery is
   * resolved in its own scope, its one table.
   */
  predicate PredicateResolves(schema: Schema, scope: set<string>, p: Predicate)
    decreases p
  {
    match p
    case Equals(c, _) => ColumnResolves(schema, scope, c)
    case Like(c, _) => ColumnResolves(schema, scope, c)
    case In(c, sub) =>
      && ColumnResolves(schema, scope, c)
      && sub.from.Some? && sub.joins == [] && |sub.projection| == 1
      && sub.from.value in schema && sub.projection[0] in schema[sub.from.value]
      && forall i | 0 <= i < |sub.wheres| :: PredicateResolves(schema, {sub.from.value}, sub.wheres[i])
  }

  predicate AllResolve(schema: Schema, scope: set<string>, ps: seq<Predicate>) {
    forall i | 0 <= i < |ps| :: PredicateResolves(schema, scope, ps[i])
  }

  function JoinTables(joins: seq<Join>): set<string> {
    set j | j in joins :: j.table
  }

  /** The column an ORDER BY clause names: the text before its first space. */
  function ClauseColumn(clause: string): (r: string)
    ensures ' ' !in r
    ensures |r| <= |clause| && r == clause[..|r|]
  {
    if |clause| == 0 || clause[0] == ' ' then "" else [clause[0]] + ClauseColumn(clause[1..])
  }

  /** A column name without a space followed by a space and a direction is named by the clause. */
  lemma {:induction false} ClauseColumnOf(column: string, rest: string)
    requires ' ' !in column
    ensures ClauseColumn(column + " " + rest) == column
  {
    if |column| == 0 {
      assert column + " " + rest == " " + rest;
    } else {
      assert (column + " " + rest)[1..] == column[1..] + " " + rest;
      assert column == [column[0]] + column[1..];
      ClauseColumnOf(column[1..], rest);
    }
  }

  /**
   * The names of the output columns of a SELECT on `base`: its projection, or
   * the columns of `base` when there is none (gorm selects `*`, or the model's
   * columns qualified by its table when the query has joins).
   */
  function OutputColumns(schema: Schema, q: Query, base: string): set<string>
    requires base in schema
  {
    if q.projection == [] then schema[base] else set c | c in q.projection
  }

  /**
   * An unqualified ORDER BY name resolves to the output column of that name, or
   * else to a column of a table in scope.
   */
  predicate OrderColumnResolves(schema: Schema, scope: set<string>, output: set<string>, column: string) {
    column in output || exists t | t in scope && t in schema :: column in schema[t]
  }

  /**
   * A SELECT on `base`: the joins' ON columns and the predicates resolve in the
   * joined scope, and every ORDER BY clause names a column that resolves.
   */
  predicate ReadResolves(schema: Schema, q: Query, base: string) {
    var scope := {base} + JoinTables(q.joins);
    && base in schema
    && (forall k | 0 <= k < |q.joins| ::
          q.joins[k].table in schema
          && ColumnResolves(schema, scope, q.joins[k].left)
          && ColumnResolves(schema, scope, q.joins[k].right))
    && AllResolve(schema, scope, q.wheres)
    && (forall k | 0 <= k < |q.orders| ::
          OrderColumnResolves(schema, scope, OutputColumns(schema, q, base), ClauseColumn(q.orders[k])))
  }

  /**
   * A DELETE on `base`: gorm builds DELETE FROM base WHERE ..., so the joins are
   * not part of the statement and the predicates must resolve in `base` alone.
   */
  predicate DeleteResolves(schema: Schema, q: Query, base: string) {
    base in schema && AllResolve(schema, {base}, q.wheres)
  }

  // --------------------------------------------------------------- evaluation

  type Record = map<string, Value>
  /** One row per table in scope. */
  type Tuple = map<string, Record>
  type Tables = map<string, seq<Record>>

  function Rows(db: Tables, table: string): seq<Record> {
    if table in db then db[table] else []
  }

  function Get(t: Tuple, c: Column): Value {
    if c.table in t && c.name in t[c.table] then t[c.table][c.name] else IntValue(0)
  }

  function Field(r: Record, name: string): Value {
    if name in r then r[name] else IntValue(0)
  }

  /** The truth value of a predicate on a tuple; `like(value, pattern)` decides LIKE. */
  predicate Holds(db: Tables, like: (string, string) -> bool, t: Tuple, p: Predicate)
    decreases p
  {
    match p
    case Equals(c, v) => Get(t, c) == v
    case Like(c, pattern) => Get(t, c).TextValue? && like(Get(t, c).s, pattern)
    case In(c, sub) =>
      var table := sub.from.GetOr("");
      var column := if |sub.projection| > 0 then sub.projection[0] else "";
      exists r | r in Rows(db, table) ::
        && Field(r, column) == Get(t, c)
        && forall i | 0 <= i < |sub.wheres| :: Holds(db, like, map[table := r], sub.wheres[i])
  }

  /** The WHERE clause: every predicate holds. */
  predicate AllHold(db: Tables, like: (string, string) -> bool, t: Tuple, ps: seq<Predicate>) {
    forall i | 0 <= i < |ps| :: Holds(db, like, t, ps[i])
  }

  /** A tuple a SELECT on `base` produces: joined rows agreeing on every ON clause, all predicates true. */
  ghost predicate Selected(db: Tables, like: (string, string) -> bool, q: Query, base: string, t: Tuple) {
    && t.Keys == {base} + JoinTables(q.joins)
    && t[base] in Rows(db, base)
    && (forall k | 0 <= k < |q.joins| ::
          t[q.joins[k].table] in Rows(db, q.joins[k].table)
          && Get(t, q.joins[k].left) == Get(t, q.joins[k].right))
    && AllHold(db, like, t, q.wheres)
  }

  lemma AllHoldAppend(db: Tables, like: (string, string) -> bool, t: Tuple, ps: seq<Predicate>, qs: seq<Predicate>)
    ensures AllHold(db, like, t, ps + qs) <==> AllHold(db, like, t, ps) && AllHold(db, like, t, qs)
  {
    if AllHold(db, like, t, ps) && AllHold(db, like, t, qs) {
      forall i | 0 <= i < |ps + qs| ensures Holds(db, like, t, (ps + qs)[i]) {
        if i >= |ps| {
          assert (ps + qs)[i] == qs[i - |ps|];
        }
      }
    }
    if AllHold(db, like, t, ps + qs) {
      forall i | 0 <= i < |ps| ensures Holds(db, like, t, ps[i]) {
        assert (ps + qs)[i] == ps[i];
      }
      forall i | 0 <= i < |qs| ensures Holds(db, like, t, qs[i]) {
        assert (ps + qs)[|ps| + i] == qs[i];
      }
    }
  }

  lemma AllHoldOne(db: Tables, like: (string, string) -> bool, t: Tuple, p: Predicate)
    ensures AllHold(db, like, t, [p]) <==> Holds(db, like, t, p)
  {
    assert [p][0] == p;
  }

  lemma AllResolveAppend(schema: Schema, scope: set<string>, ps: seq<Predicate>, qs: seq<Predicate>)
    ensures AllResolve(schema, scope, ps + qs) <==> AllResolve(schema, scope, ps) && AllResolve(schema, scope, qs)
  {
    if AllResolve(schema, scope, ps) && AllResolve(schema, scope, qs) {
      forall i | 0 <= i < |ps + qs| ensures PredicateResolves(schema, scope, (ps + qs)[i]) {
        if i >= |ps| {
          assert (ps + qs)[i] == qs[i - |ps|];
        }
      }
    }
    if AllResolve(schema, scope, ps + qs) {
      forall i | 0 <= i < |ps| ensures PredicateResolves(schema, scope, ps[i]) {
        assert (ps + qs)[i] == ps[i];
      }
      forall i | 0 <= i < |qs| ensures PredicateResolves(schema, scope, qs[i]) {
        assert (ps + qs)[|ps| + i] == qs[i];
      }
    }
  }

  // ------------------------------------------------------- generic row lists

  /** The elements of `s` that `keep` accepts, in order. */
  function Filter<T(!new)>(s: seq<T>, keep: T -> bool): (r: seq<T>)
    ensures |r| <= |s|
    ensures forall x :: x in r <==> x in s && keep(x)
  {
    if |s| == 0 then []
    else
      var rest := Filter(s[1..], keep);
      assert forall x :: x in s <==> x == s[0] || x in s[1..];
      if keep(s[0]) then [s[0]] + rest else rest
  }

  /** Filters that agree on every element give the same result. */
  lemma {:induction false} FilterCongruence<T(!new)>(s: seq<T>, p: T -> bool, p': T -> bool)
    requires forall x | x in s :: p(x) == p'(x)
    ensures Filter(s, p) == Filter(s, p')
  {
    if |s| > 0 {
      assert forall x | x in s[1..] :: x in s;
      FilterCongruence(s[1..], p, p');
    }
  }

  /** The first element of `s` that `accept` accepts, if any. */
  function First<T(!new)>(s: seq<T>, accept: T -> bool): (r: Option<T>)
    ensures r.Some? ==> r.value in s && accept(r.value)
    ensures r.None? <==> forall x | x in s :: !accept(x)
    ensures r.Some? ==> exists k | 0 <= k < |s| :: s[k] == r.value && forall m | 0 <= m < k :: !accept(s[m])
  {
    if |s| == 0 then None
    else if accept(s[0]) then Some(s[0])
    else
      var rest := First(s[1..], accept);
      assert forall x :: x in s <==> x == s[0] || x in s[1..];
      assert rest.Some? ==> exists k | 0 <= k < |s| :: s[k] == rest.value && forall m | 0 <= m < k :: !accept(s[m]) by {
        if rest.Some? {
          var k :| 0 <= k < |s[1..]| && s[1..][k] == rest.value && forall m | 0 <= m < k :: !accept(s[1..][m]);
          assert s[k + 1] == rest.value && forall m | 0 <= m < k + 1 :: !accept(s[m]);
        }
      }
      rest
  }
}
