/**
 * backend/api/utils/number_parser.go: parse a query-parameter number with a
 * default and a list of acceptance filters. The production callers use Go's
 * `int`, so the type parameter of the source is fixed to `int` here.
 */
module NumberParser {
  import opened Wrappers
  import opened GoText

  /** Filter[T]: a test that a parsed number must pass. */
  type Filter = int -> bool

  /** True when every filter accepts `x`. */
  predicate AllAccept(filters: seq<Filter>, x: int) {
    forall k | 0 <= k < |filters| :: filters[k](x)
  }

  lemma AllAcceptOne(f: Filter, x: int)
    ensures AllAccept([f], x) <==> f(x)
  {
    assert [f][0] == f;
  }

  /**
   * ParseNumber: the number `input` denotes when Atoi accepts it and every
   * filter accepts the number; the default `d` in every other case.
   */
  function ParseNumber(input: string, d: int, filters: seq<Filter>): (r: int)
    ensures Atoi(input).None? ==> r == d
    ensures Atoi(input).Some? && !AllAccept(filters, Atoi(input).value) ==> r == d
    ensures r == d || (Atoi(input) == Some(r) && AllAccept(filters, r))
    ensures |filters| == 0 && Atoi(input).Some? ==> r == Atoi(input).value
  {
    match Atoi(input)
    case None => d
    case Some(i) => if AllAccept(filters, i) then i else d
  }

  /** Boundaries(min, max): accepts exactly the numbers from min to max, both included. */
  function Boundaries(min: int, max: int): (f: Filter)
    ensures forall x :: f(x) <==> min <= x <= max
  {
    x => min <= x && x <= max
  }

  /**
   * With a single Boundaries(min, max) filter the result is the parsed number
   * when it is from min to max, both included, and the default otherwise.
   */
  lemma ParseNumberBounded(input: string, d: int, min: int, max: int)
    ensures ParseNumber(input, d, [Boundaries(min, max)])
         == var n := Atoi(input); if n.Some? && min <= n.value <= max then n.value else d
  {
    if Atoi(input).Some? {
      AllAcceptOne(Boundaries(min, max), Atoi(input).value);
    }
  }

  /**
   * With a single Boundaries filter and a default inside the bounds, the
   * result always lies inside the bounds.
   */
  lemma ParseNumberWithin(input: string, d: int, min: int, max: int)
    requires min <= d <= max
    ensures min <= ParseNumber(input, d, [Boundaries(min, max)]) <= max
  {
    ParseNumberBounded(input, d, min, max);
  }

  /**
   * The decimal text of a 64-bit number reads back as that number when it is
   * inside the bounds, and as the default otherwise.
   */
  lemma ParseNumberOfItoa(n: int, d: int, min: int, max: int)
    requires MinInt64 <= n <= MaxInt64
    ensures ParseNumber(Itoa(n), d, [Boundaries(min, max)]) == if min <= n <= max then n else d
  {
    AtoiItoa(n);
    AllAcceptOne(Boundaries(min, max), n);
  }

  /** The cases of number_parser_test.go: Boundaries(1, 100) with default 50. */
  lemma BoundariesExamples()
    ensures ParseNumber("0", 50, [Boundaries(1, 100)]) == 50
    ensures ParseNumber("120", 50, [Boundaries(1, 100)]) == 50
    ensures ParseNumber("30", 50, [Boundaries(1, 100)]) == 30
    ensures ParseNumber("hello world", 50, []) == 50
  {
    assert DigitsValue("0") == 0;
    assert DigitsValue("120") == 120 by {
      assert "120"[..2] == "12" && "12"[..1] == "1" && "1"[..0] == "";
    }
    assert DigitsValue("30") == 30 by {
      assert "30"[..1] == "3" && "3"[..0] == "";
    }
    AllAcceptOne(Boundaries(1, 100), 0);
    AllAcceptOne(Boundaries(1, 100), 120);
    AllAcceptOne(Boundaries(1, 100), 30);
    AtoiRejectsNonDigit("hello world", 0);
  }
}
