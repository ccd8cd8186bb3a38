/**
 * backend/api/utils/repository.go: WrapperRequest.ToScope applies a parsed
 * request to a query: the whitelisted ORDER BY clauses in request order, then
 * OFFSET skip, then LIMIT limit. The whitelist (Body.OrderByColumnsAllowed()) is
 * the parameter `allowed`.
 */
module UtilsRepository {
  import opened Wrappers
  import opened GoText
  import opened UtilsModel
  import opened Gorm

  /** The ORDER BY clause texts for the entries whose field is whitelisted, in request order. */
  function OrderClauses(obs: seq<OrderBy>, allowed: set<string>): (r: seq<string>)
    ensures |r| <= |obs|
  {
    if |obs| == 0 then []
    else
      var last := obs[|obs| - 1];
      OrderClauses(obs[..|obs| - 1], allowed) + (if last.field in allowed then [last.String()] else [])
  }

  /** The query ToScope produces from `db`. */
  function Scope<T>(w: WrapperRequest<T>, allowed: set<string>, db: Query): Query {
    Limit(Offset(db.(orders := db.orders + OrderClauses(w.orderBy, allowed)), w.skip), w.limit)
  }

  /** WrapperRequest.orderBy: one Order call per whitelisted entry. */
  method ApplyOrderBy<T>(w: WrapperRequest<T>, allowed: set<string>, db: Query) returns (r: Query)
    ensures r == db.(orders := db.orders + OrderClauses(w.orderBy, allowed))
  {
    r := db;
    for i := 0 to |w.orderBy|
      invariant r == db.(orders := db.orders + OrderClauses(w.orderBy[..i], allowed))
    {
      assert w.orderBy[..i + 1][..i] == w.orderBy[..i];
      if w.orderBy[i].field in allowed {
        r := Order(r, w.orderBy[i].String());
      }
    }
    assert w.orderBy[..|w.orderBy|] == w.orderBy;
  }

  /** WrapperRequest.ToScope: limit(skip(orderBy(db))). */
  method ToScope<T>(w: WrapperRequest<T>, allowed: set<string>, db: Query) returns (r: Query)
    ensures r == Scope(w, allowed, db)
  {
    r := ApplyOrderBy(w, allowed, db);
    r := Offset(r, w.skip);
    r := Limit(r, w.limit);
  }

  /** ToScope touches only the order clauses, the offset and the limit; offset and limit are exactly skip and limit. */
  lemma ScopeFields<T>(w: WrapperRequest<T>, allowed: set<string>, db: Query)
    ensures Scope(w, allowed, db).offset == Some(w.skip)
    ensures Scope(w, allowed, db).limit == Some(w.limit)
    ensures Scope(w, allowed, db).(orders := db.orders, offset := db.offset, limit := db.limit) == db
    ensures Scope(w, allowed, db).orders[..|db.orders|] == db.orders
  {
  }

  /** Filtering a concatenation filters each part: kept entries keep their relative order. */
  lemma {:induction false} OrderClausesAppend(a: seq<OrderBy>, b: seq<OrderBy>, allowed: set<string>)
    ensures OrderClauses(a + b, allowed) == OrderClauses(a, allowed) + OrderClauses(b, allowed)
    decreases |b|
  {
    if |b| == 0 {
      assert a + b == a;
    } else {
      var b' := b[..|b| - 1];
      assert (a + b)[..|a + b| - 1] == a + b';
      OrderClausesAppend(a, b', allowed);
    }
  }

  /** The entries whose field is whitelisted, in order. */
  function AllowedEntries(obs: seq<OrderBy>, allowed: set<string>): seq<OrderBy> {
    Filter(obs, (o: OrderBy) => o.field in allowed)
  }

  /** OrderClauses is the clause text of each whitelisted entry, and nothing else. */
  lemma {:induction false} OrderClausesAreAllowedEntries(obs: seq<OrderBy>, allowed: set<string>)
    ensures |OrderClauses(obs, allowed)| == |AllowedEntries(obs, allowed)|
    ensures forall k | 0 <= k < |OrderClauses(obs, allowed)| ::
              OrderClauses(obs, allowed)[k] == AllowedEntries(obs, allowed)[k].String()
  {
    if |obs| > 0 {
      var head := [obs[0]];
      var tail := obs[1..];
      assert obs == head + tail;
      OrderClausesAppend(head, tail, allowed);
      OrderClausesAreAllowedEntries(tail, allowed);
      assert head[..0] == [];
    }
  }

  /** A clause is emitted for an entry exactly when its field is whitelisted; each emitted clause is Field + " " + ASC|DESC. */
  lemma OrderClausesMembers(obs: seq<OrderBy>, allowed: set<string>, clause: string)
    ensures clause in OrderClauses(obs, allowed) <==>
              exists o | o in obs :: o.field in allowed && clause == o.field + " " + o.direction.String()
  {
    OrderClausesAreAllowedEntries(obs, allowed);
    var kept := AllowedEntries(obs, allowed);
    var clauses := OrderClauses(obs, allowed);
    if clause in clauses {
      var k :| 0 <= k < |clauses| && clauses[k] == clause;
      assert kept[k] in kept;
    }
    if exists o | o in obs :: o.field in allowed && clause == o.field + " " + o.direction.String() {
      var o :| o in obs && o.field in allowed && clause == o.field + " " + o.direction.String();
      assert o in kept;
      var k :| 0 <= k < |kept| && kept[k] == o;
      assert clauses[k] == clause;
    }
  }

  /** Each emitted clause names the field of a whitelisted entry of the request. */
  lemma OrderClauseColumn(obs: seq<OrderBy>, allowed: set<string>, k: int)
    requires forall f | f in allowed :: ' ' !in f
    requires 0 <= k < |OrderClauses(obs, allowed)|
    ensures exists o | o in obs && o.field in allowed :: ClauseColumn(OrderClauses(obs, allowed)[k]) == o.field
  {
    var clause := OrderClauses(obs, allowed)[k];
    OrderClausesMembers(obs, allowed, clause);
    var o :| o in obs && o.field in allowed && clause == o.field + " " + o.direction.String();
    ClauseColumnOf(o.field, o.direction.String());
  }

  /** The field of each whitelisted entry of the request is named by an emitted clause. */
  lemma OrderFieldNamed(obs: seq<OrderBy>, allowed: set<string>, o: OrderBy)
    requires forall f | f in allowed :: ' ' !in f
    requires o in obs && o.field in allowed
    ensures exists k | 0 <= k < |OrderClauses(obs, allowed)| :: ClauseColumn(OrderClauses(obs, allowed)[k]) == o.field
  {
    var clause := o.field + " " + o.direction.String();
    OrderClausesMembers(obs, allowed, clause);
    ClauseColumnOf(o.field, o.direction.String());
  }

  /**
   * For a whitelist of names without spaces, the columns the emitted clauses
   * name are exactly the whitelisted fields the request asks for.
   */
  lemma OrderClauseColumns(obs: seq<OrderBy>, allowed: set<string>)
    requires forall f | f in allowed :: ' ' !in f
    ensures (set k | 0 <= k < |OrderClauses(obs, allowed)| :: ClauseColumn(OrderClauses(obs, allowed)[k]))
         == (set o | o in obs && o.field in allowed :: o.field)
  {
    forall k | 0 <= k < |OrderClauses(obs, allowed)| {
      OrderClauseColumn(obs, allowed, k);
    }
    forall o | o in obs && o.field in allowed {
      OrderFieldNamed(obs, allowed, o);
    }
  }

  /** An empty request list or an empty whitelist adds no clause. */
  lemma {:induction false} OrderClausesEmpty(obs: seq<OrderBy>, allowed: set<string>)
    requires |obs| == 0 || allowed == {}
    ensures OrderClauses(obs, allowed) == []
  {
    if |obs| > 0 {
      OrderClausesEmpty(obs[..|obs| - 1], allowed);
    }
  }

  /** A whitelisted field without a space survives the round trip through the clause text. */
  lemma OrderClauseParsesBack(o: OrderBy, allowed: set<string>)
    requires ' ' !in o.field && o.field in allowed
    ensures OrderClauses([o], allowed) == [o.String()]
    ensures ParseOrderBy(OrderClauses([o], allowed)[0]) == Success(o)
  {
    assert [o][..0] == [];
    OrderByRoundTrip(o);
  }
}
