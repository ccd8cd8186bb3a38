/**
 * backend/api/utils/model.go: sort directions, "field direction" order-by
 * tokens, and the request scope (limit, skip, order-by list, filter body)
 * built from the raw query parameters.
 */
module UtilsModel {
  import opened Wrappers
  import opened GoText
  import opened NumberParser

  const LimitQuery: string := "limit"
  const SkipQuery: string := "skip"
  const OrderByQuery: string := "order_by"

  const LimitDefault: int := 50
  const LimitMax: int := 100
  const LimitMin: int := 1

  const SkipDefault: int := 0
  /** math.MaxInt32 */
  const SkipMax: int := 0x7FFF_FFFF
  const SkipMin: int := 0

  // ------------------------------------------------------------- Direction

  /** Direction; Asc is its zero value (iota 0) and Desc is 1. */
  datatype Direction = Asc | Desc {
    /** The SQL keyword for the direction. */
    function String(): (s: string)
      ensures s == "ASC" <==> this == Asc
      ensures s == "DESC" <==> this == Desc
      ensures ' ' !in s
    {
      match this
      case Asc => "ASC"
      case Desc => "DESC"
    }
  }

  /** What Direction.unmarshal assigns for an integer, if it accepts it. */
  function DirectionFromInt(src: int): (r: Option<Direction>)
    ensures r.Some? <==> src == 0 || src == 1
    ensures r == Some(Asc) <==> src == 0
    ensures r == Some(Desc) <==> src == 1
  {
    if src == 0 then Some(Asc)
    else if src == 1 then Some(Desc)
    else None
  }

  /**
   * What Direction.unmarshalText assigns for a text, if it accepts it: only the
   * all-lower and all-upper spellings are recognised.
   */
  function DirectionFromText(src: string): (r: Option<Direction>)
    ensures r.Some? <==> src in {"asc", "ASC", "desc", "DESC"}
    ensures r == Some(Desc) <==> src == "desc" || src == "DESC"
  {
    if src == "asc" || src == "ASC" then Some(Asc)
    else if src == "desc" || src == "DESC" then Some(Desc)
    else None
  }

  /** The text String writes is read back by unmarshalText as the same direction. */
  lemma DirectionTextRoundTrip(d: Direction)
    ensures DirectionFromText(d.String()) == Some(d)
  {
  }

  /** Mixed-case spellings are not recognised. */
  lemma DirectionMixedCaseRejected()
    ensures DirectionFromText("Desc") == None
    ensures DirectionFromText("Asc") == None
  {
  }

  /**
   * A Direction variable that the pointer-receiver methods Set, unmarshal and
   * unmarshalText assign to.
   */
  class DirectionVar {
    var value: Direction

    /** `var d Direction`: the zero value. */
    constructor ()
      ensures value == Asc
    {
      value := Asc;
    }

    /** Direction.Set: unmarshal, reporting errInvalidDirection on refusal. */
    method Set(src: int) returns (err: Option<Error>)
      modifies this
      ensures err == if DirectionFromInt(src).Some? then None else Some(InvalidDirection)
      ensures value == DirectionFromInt(src).GetOr(old(value))
    {
      var ok := Unmarshal(src);
      if !ok {
        return Some(InvalidDirection);
      }
      return None;
    }

    /** Direction.unmarshal: 0 gives Asc, 1 gives Desc, anything else is refused. */
    method Unmarshal(src: int) returns (ok: bool)
      modifies this
      ensures ok <==> DirectionFromInt(src).Some?
      ensures value == DirectionFromInt(src).GetOr(old(value))
    {
      if src == 0 {
        value := Asc;
      } else if src == 1 {
        value := Desc;
      } else {
        return false;
      }
      return true;
    }

    /** Direction.unmarshalText: "asc"/"ASC" give Asc, "desc"/"DESC" give Desc. */
    method UnmarshalText(src: string) returns (ok: bool)
      modifies this
      ensures ok <==> DirectionFromText(src).Some?
      ensures value == DirectionFromText(src).GetOr(old(value))
    {
      if src == "asc" || src == "ASC" {
        value := Asc;
      } else if src == "desc" || src == "DESC" {
        value := Desc;
      } else {
        return false;
      }
      return true;
    }
  }

  // --------------------------------------------------------------- orderBy

  /** One sort instruction. */
  datatype OrderBy = OrderBy(field: string, direction: Direction) {
    /** The ORDER BY clause text: the field, one space, ASC or DESC. */
    function String(): string {
      field + " " + direction.String()
    }
  }

  /** The request scope; `body` is the partly filled entity used as the filter. */
  datatype WrapperRequest<T> = WrapperRequest(limit: int, skip: int, orderBy: seq<OrderBy>, body: T)

  /**
   * parseOrderBy: a token splits on single spaces; it is accepted only when that
   * gives exactly two parts. The direction starts as the zero value Asc and is
   * overwritten only by a recognised direction text.
   */
  function ParseOrderBy(input: string): (r: Result<OrderBy>)
    ensures r.Success? <==> Count(input, ' ') == 1
    ensures r.Failure? ==> r.error == InvalidOrderBy
    ensures r.Success? ==> IndexOf(input, ' ') < |input|
    ensures r.Success? ==> r.value.field == input[..IndexOf(input, ' ')]
    ensures r.Success? ==>
      (r.value.direction == Desc <==> input[IndexOf(input, ' ') + 1..] in {"desc", "DESC"})
  {
    var parts := Split(input, ' ');
    if |parts| != 2 then Failure(InvalidOrderBy)
    else
      SplitSingleSeparator(input, ' ');
      Success(OrderBy(parts[0], DirectionFromText(parts[1]).GetOr(Asc)))
  }

  lemma {:induction false} IndexOfPrefix(a: string, b: string, c: char)
    requires c !in a
    ensures IndexOf(a + [c] + b, c) == |a|
  {
    if |a| > 0 {
      assert (a + [c] + b)[1..] == a[1..] + [c] + b;
      assert c !in a[1..];
      IndexOfPrefix(a[1..], b, c);
    }
  }

  /** The clause text of a sort instruction parses back to it when its field has no space. */
  lemma OrderByRoundTrip(o: OrderBy)
    requires ' ' !in o.field
    ensures ParseOrderBy(o.String()) == Success(o)
  {
    var dir := o.direction.String();
    assert o.String() == o.field + [' '] + dir;
    CountAppend(o.field + [' '], dir, ' ');
    CountAppend(o.field, [' '], ' ');
    CountAbsent(o.field, ' ');
    CountAbsent(dir, ' ');
    IndexOfPrefix(o.field, dir, ' ');
    assert o.String()[..|o.field|] == o.field;
    assert o.String()[|o.field| + 1..] == dir;
  }

  /**
   * The sort instructions parseArrOrderBy returns: the tokens that parse, each
   * replaced by its instruction, in input order.
   */
  function ParsedOrderBys(arr: seq<string>): (r: seq<OrderBy>)
    ensures |r| <= |arr|
  {
    if |arr| == 0 then []
    else
      var init := ParsedOrderBys(arr[..|arr| - 1]);
      match ParseOrderBy(arr[|arr| - 1])
      case Success(o) => init + [o]
      case Failure(_) => init
  }

  /** Parsing a concatenation gives the concatenation of the parses: order is kept. */
  lemma {:induction false} ParsedOrderBysAppend(a: seq<string>, b: seq<string>)
    ensures ParsedOrderBys(a + b) == ParsedOrderBys(a) + ParsedOrderBys(b)
  {
    if |b| == 0 {
      assert a + b == a;
    } else {
      assert (a + b)[..|a + b| - 1] == a + b[..|b| - 1];
      ParsedOrderBysAppend(a, b[..|b| - 1]);
    }
  }

  /** An instruction is in the result exactly when some token parses to it. */
  lemma {:induction false} ParsedOrderBysMembers(arr: seq<string>, o: OrderBy)
    ensures o in ParsedOrderBys(arr) <==> exists i | 0 <= i < |arr| :: ParseOrderBy(arr[i]) == Success(o)
  {
    if |arr| > 0 {
      var init := arr[..|arr| - 1];
      ParsedOrderBysMembers(init, o);
      if exists i | 0 <= i < |arr| :: ParseOrderBy(arr[i]) == Success(o) {
        var i :| 0 <= i < |arr| && ParseOrderBy(arr[i]) == Success(o);
        if i < |arr| - 1 {
          assert init[i] == arr[i];
        }
      }
      if exists i | 0 <= i < |init| :: ParseOrderBy(init[i]) == Success(o) {
        var i :| 0 <= i < |init| && ParseOrderBy(init[i]) == Success(o);
        assert arr[i] == init[i];
      }
    }
  }

  /** When every token parses, the result is the token-wise parse. */
  lemma {:induction false} ParsedOrderBysAllValid(arr: seq<string>)
    requires forall i | 0 <= i < |arr| :: ParseOrderBy(arr[i]).Success?
    ensures |ParsedOrderBys(arr)| == |arr|
    ensures forall i | 0 <= i < |arr| :: ParsedOrderBys(arr)[i] == ParseOrderBy(arr[i]).value
  {
    if |arr| > 0 {
      var init := arr[..|arr| - 1];
      assert forall i | 0 <= i < |init| :: init[i] == arr[i];
      ParsedOrderBysAllValid(init);
    }
  }

  /**
   * parseArrOrderBy: fills a result array of the input's length with the
   * tokens that parse and returns its filled prefix.
   */
  method ParseArrOrderBy(arr: seq<string>) returns (r: seq<OrderBy>)
    ensures r == ParsedOrderBys(arr)
  {
    var result := new OrderBy[|arr|];
    var j := 0;
    for i := 0 to |arr|
      invariant j <= i
      invariant result[..j] == ParsedOrderBys(arr[..i])
    {
      assert arr[..i + 1][..i] == arr[..i];
      var parsed := ParseOrderBy(arr[i]);
      if parsed.Success? {
        result[j] := parsed.value;
        j := j + 1;
      }
    }
    assert arr[..|arr|] == arr;
    r := result[..j];
  }

  /** Well-formed tokens of TestParseOrderBy, and a direction that is not recognised. */
  lemma ParseOrderByAccepted()
    ensures ParseOrderBy("field_1" + " " + "desc") == Success(OrderBy("field_1", Desc))
    ensures ParseOrderBy("field_2" + " " + "asc") == Success(OrderBy("field_2", Asc))
    ensures ParseOrderBy("b" + " " + "whatever") == Success(OrderBy("b", Asc))
    ensures ParseOrderBy("field" + " " + "Desc") == Success(OrderBy("field", Asc))
  {
    SplitAt("field_1", "desc");
    SplitAt("field_2", "asc");
    SplitAt("b", "whatever");
    SplitAt("field", "Desc");
  }

  /** Malformed tokens of TestParseOrderBy: a double space, or more than two parts. */
  lemma ParseOrderByRejected()
    ensures ParseOrderBy("field_1" + " " + "" + " " + "desc").Failure?
    ensures ParseOrderBy("field_2" + " " + "a" + " " + "sc").Failure?
    ensures ParseOrderBy("field_3" + " " + "d" + " " + "e s c").Failure?
  {
    CountOf("field_1", "", "desc");
    CountOf("field_2", "a", "sc");
    CountOf("field_3", "d", "e s c");
  }

  /** A token without any space is rejected. */
  lemma ParseOrderByNoSpace()
    ensures ParseOrderBy("c").Failure?
  {
    assert Count("c", ' ') == 0;
  }

  lemma SplitAt(a: string, b: string)
    requires ' ' !in a && ' ' !in b
    ensures ParseOrderBy(a + " " + b) == Success(OrderBy(a, DirectionFromText(b).GetOr(Asc)))
  {
    var s := a + " " + b;
    assert s == a + [' '] + b;
    CountAppend(a + [' '], b, ' ');
    CountAppend(a, [' '], ' ');
    CountAbsent(a, ' ');
    CountAbsent(b, ' ');
    IndexOfPrefix(a, b, ' ');
    assert s[..|a|] == a;
    assert s[|a| + 1..] == b;
    assert DirectionFromText(b) == Some(Desc) <==> b in {"desc", "DESC"};
  }

  lemma CountOf(a: string, b: string, c: string)
    requires ' ' !in a && ' ' !in b
    ensures Count(a + " " + b + " " + c, ' ') == 2 + Count(c, ' ')
  {
    assert a + " " + b + " " + c == a + ((" " + b) + (" " + c));
    CountAppend(a, (" " + b) + (" " + c), ' ');
    CountAppend(" " + b, " " + c, ' ');
    CountAppend(" ", b, ' ');
    CountAppend(" ", c, ' ');
    CountAbsent(a, ' ');
    CountAbsent(b, ' ');
  }

  /** gin's query-parameter view of a request: every key with its values in order. */
  datatype QueryParams = QueryParams(values: map<string, seq<string>>) {
    /** All values of `key`; none when it is absent. */
    function QueryArray(key: string): seq<string> {
      if key in values then values[key] else []
    }

    /** The first value of `key`, or "" when it has none. */
    function Query(key: string): string {
      var a := QueryArray(key);
      if |a| > 0 then a[0] else ""
    }
  }

  /**
   * ParseRequest: limit defaults to 50 unless its text is a number in [1, 100];
   * skip defaults to 0 unless its text is a number in [0, MaxInt32]; the
   * order-by list is every token that parses, NOT checked against any
   * whitelist; the body is kept as given.
   */
  function ParseRequest<T>(q: QueryParams, body: T): (w: WrapperRequest<T>)
    ensures LimitMin <= w.limit <= LimitMax
    ensures SkipMin <= w.skip <= SkipMax
    ensures w.limit == var n := Atoi(q.Query(LimitQuery));
      if n.Some? && LimitMin <= n.value <= LimitMax then n.value else LimitDefault
    ensures w.skip == var n := Atoi(q.Query(SkipQuery));
      if n.Some? && SkipMin <= n.value <= SkipMax then n.value else SkipDefault
    ensures w.orderBy == ParsedOrderBys(q.QueryArray(OrderByQuery))
    ensures w.body == body
  {
    ParseNumberBounded(q.Query(LimitQuery), LimitDefault, LimitMin, LimitMax);
    ParseNumberBounded(q.Query(SkipQuery), SkipDefault, SkipMin, SkipMax);
    WrapperRequest(
      ParseNumber(q.Query(LimitQuery), LimitDefault, [Boundaries(LimitMin, LimitMax)]),
      ParseNumber(q.Query(SkipQuery), SkipDefault, [Boundaries(SkipMin, SkipMax)]),
      ParsedOrderBys(q.QueryArray(OrderByQuery)),
      body)
  }

  /** TestParseRequest, first case: limit 20 and one order-by token. */
  lemma ParseRequestWithLimit(body: int)
    ensures ParseRequest(QueryParams(map[LimitQuery := ["20"], OrderByQuery := ["field_1" + " " + "asc"]]), body)
         == WrapperRequest(20, 0, [OrderBy("field_1", Asc)], body)
  {
    SplitAt("field_1", "asc");
    var tokens := ["field_1" + " " + "asc"];
    assert tokens[..0] == [];
    assert ParsedOrderBys(tokens) == [OrderBy("field_1", Asc)];
    assert DigitsValue("20") == 20 by { assert "20"[..1] == "2" && "2"[..0] == ""; }
  }

  /** TestParseRequest, other cases: an absent, too small or too large limit gives 50. */
  lemma ParseRequestDefaultLimit(body: int)
    ensures ParseRequest(QueryParams(map[OrderByQuery := ["field_1" + " " + "asc"]]), body).limit == 50
    ensures ParseRequest(QueryParams(map[LimitQuery := ["0"]]), body).limit == 50
    ensures ParseRequest(QueryParams(map[LimitQuery := ["101"]]), body).limit == 50
  {
    assert DigitsValue("101") == 101 by {
      assert "101"[..2] == "10" && "10"[..1] == "1" && "1"[..0] == "";
    }
    assert DigitsValue("0") == 0;
  }
}
