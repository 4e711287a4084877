/**
 * The pagination query of the record listing: `limit` defaults to 20 and
 * must be an integer in [1, 100]; `skip` defaults to 0 and must be an
 * integer of at least 0.
 */
module GetPoisQuery {
  import opened Wrappers

  /** A parameter after conversion to a JavaScript number: a finite value or
      NaN (what a non-numeric text converts to). */
  datatype QueryNumber = Finite(x: real) | NaN

  const DefaultLimit: int := 20
  const MinLimit: int := 1
  const MaxLimit: int := 100
  const DefaultSkip: int := 0
  const MinSkip: int := 0

  datatype Page = Page(limit: int, skip: int)

  datatype Violation = LimitNotInt | LimitBelowMin | LimitAboveMax | SkipNotInt | SkipBelowMin

  /** `IsInt`. */
  predicate IsInt(n: QueryNumber) {
    n.Finite? && n.x.Floor as real == n.x
  }

  /** `Min(m)`: false for NaN. */
  predicate AtLeast(n: QueryNumber, m: int) {
    n.Finite? && n.x >= m as real
  }

  /** `Max(m)`: false for NaN. */
  predicate AtMost(n: QueryNumber, m: int) {
    n.Finite? && n.x <= m as real
  }

  /** The checks an optional parameter fails; an absent one is not checked. */
  function LimitViolations(limit: Option<QueryNumber>): set<Violation> {
    match limit
    case None => {}
    case Some(n) =>
      (if IsInt(n) then {} else {LimitNotInt})
      + (if AtLeast(n, MinLimit) then {} else {LimitBelowMin})
      + (if AtMost(n, MaxLimit) then {} else {LimitAboveMax})
  }

  function SkipViolations(skip: Option<QueryNumber>): set<Violation> {
    match skip
    case None => {}
    case Some(n) =>
      (if IsInt(n) then {} else {SkipNotInt})
      + (if AtLeast(n, MinSkip) then {} else {SkipBelowMin})
  }

  /**
   * The validated query: accepted exactly when each given parameter is an
   * integer in its range; an absent parameter takes its default.
   */
  function ValidatePoisQuery(limit: Option<QueryNumber>, skip: Option<QueryNumber>)
    : (r: Result<Page, set<Violation>>)
    ensures r.Ok? <==>
              && (limit.None? || (IsInt(limit.value) && MinLimit as real <= limit.value.x <= MaxLimit as real))
              && (skip.None? || (IsInt(skip.value) && MinSkip as real <= skip.value.x))
    ensures r.Ok? ==> MinLimit <= r.value.limit <= MaxLimit && MinSkip <= r.value.skip
    ensures r.Ok? ==> r.value.limit == if limit.None? then DefaultLimit else limit.value.x.Floor
    ensures r.Ok? ==> r.value.skip == if skip.None? then DefaultSkip else skip.value.x.Floor
    ensures r.Err? ==> r.error != {}
    ensures r.Err? ==>
              && (LimitNotInt in r.error <==> limit.Some? && !IsInt(limit.value))
              && (LimitBelowMin in r.error <==> limit.Some? && !AtLeast(limit.value, MinLimit))
              && (LimitAboveMax in r.error <==> limit.Some? && !AtMost(limit.value, MaxLimit))
              && (SkipNotInt in r.error <==> skip.Some? && !IsInt(skip.value))
              && (SkipBelowMin in r.error <==> skip.Some? && !AtLeast(skip.value, MinSkip))
  {
    var violations := LimitViolations(limit) + SkipViolations(skip);
    if violations != {} then Err(violations)
    else
      var l := if limit.None? then DefaultLimit else limit.value.x.Floor;
      var s := if skip.None? then DefaultSkip else skip.value.x.Floor;
      Ok(Page(l, s))
  }

  /** An empty query is valid and gets the defaults. */
  lemma EmptyQueryIsValid()
    ensures ValidatePoisQuery(None, None) == Ok(Page(DefaultLimit, DefaultSkip))
  {
  }
}
