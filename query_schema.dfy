/**
 * `querySchema`: the zod object schema that validates the popularity route's
 * query string. zod's coercion and `Date.parse` are given as parameters; an
 * invalid query is reported as the list of fields that carry an issue, in the
 * order the schema declares them.
 */
module QuerySchema {
  import opened Wrappers

  /** One query-string parameter as Express parses it: one value, or several when the name repeats. */
  datatype Param = One(text: string) | Many(texts: seq<string>)

  datatype RawQuery = RawQuery(language: Option<Param>, createdAfter: Option<Param>, q: Option<Param>,
                               perPage: Option<Param>, page: Option<Param>)

  /** `Number(input)` as far as `.int()` can tell: an integer, or anything else (NaN, a fraction, an infinity). */
  datatype Coerced = Integer(n: int) | NotInteger

  datatype Field = Language | CreatedAfter | Q | PerPage | Page

  /** The parsed query; `q` is None when the parameter was absent. */
  datatype Query = Query(language: string, createdAfter: string, q: Option<string>, perPage: int, page: int)

  const MaxPerPage := 100
  const DefaultPerPage := 10
  const MaxPage := 10
  const DefaultPage := 1

  /** `z.string().min(1)`: a single, non-empty string. */
  function RequiredText(p: Option<Param>): Option<string> {
    match p
    case Some(One(s)) => if |s| >= 1 then Some(s) else None
    case _ => None
  }

  /** `z.string().optional()`: absent, or a single string kept as it is; None when invalid. */
  function OptionalText(p: Option<Param>): Option<Option<string>> {
    match p
    case None => Some(None)
    case Some(One(s)) => Some(Some(s))
    case Some(Many(_)) => None
  }

  /** `z.coerce.number().int().min(lo).max(hi).default(dflt)`; None when invalid. */
  function BoundedInt(p: Option<Param>, coerce: Param -> Coerced, lo: int, hi: int, dflt: int): Option<int> {
    match p
    case None => Some(dflt)
    case Some(v) =>
      match coerce(v)
      case Integer(n) => if lo <= n <= hi then Some(n) else None
      case NotInteger => None
  }

  /** `created_after`: a non-empty string that `Date.parse` does not turn into NaN. */
  function DateText(p: Option<Param>, parsesAsDate: string -> bool): Option<string> {
    match RequiredText(p)
    case Some(s) => if parsesAsDate(s) then Some(s) else None
    case None => None
  }

  /** Whether the schema raises no issue for field `f`. */
  predicate FieldOk(raw: RawQuery, f: Field, parsesAsDate: string -> bool, coerce: Param -> Coerced) {
    match f
    case Language => RequiredText(raw.language).Some?
    case CreatedAfter => DateText(raw.createdAfter, parsesAsDate).Some?
    case Q => OptionalText(raw.q).Some?
    case PerPage => BoundedInt(raw.perPage, coerce, 1, MaxPerPage, DefaultPerPage).Some?
    case Page => BoundedInt(raw.page, coerce, 1, MaxPage, DefaultPage).Some?
  }

  /** Every bound the schema imposes. */
  predicate WellFormed(q: Query) {
    |q.language| >= 1 && |q.createdAfter| >= 1 && 1 <= q.perPage <= MaxPerPage && 1 <= q.page <= MaxPage
  }

  function IssueIf(bad: bool, f: Field): (r: seq<Field>)
    ensures forall g :: g in r <==> bad && g == f
  {
    if bad then [f] else []
  }

  /** The fields with an issue, in the order the schema declares them. */
  function Issues(raw: RawQuery, parsesAsDate: string -> bool, coerce: Param -> Coerced): (r: seq<Field>)
    ensures forall f :: f in r <==> !FieldOk(raw, f, parsesAsDate, coerce)
  {
    IssueIf(!FieldOk(raw, Language, parsesAsDate, coerce), Language)
    + IssueIf(!FieldOk(raw, CreatedAfter, parsesAsDate, coerce), CreatedAfter)
    + IssueIf(!FieldOk(raw, Q, parsesAsDate, coerce), Q)
    + IssueIf(!FieldOk(raw, PerPage, parsesAsDate, coerce), PerPage)
    + IssueIf(!FieldOk(raw, Page, parsesAsDate, coerce), Page)
  }

  /** `querySchema.safeParse(req.query)`. */
  function Validate(raw: RawQuery, parsesAsDate: string -> bool, coerce: Param -> Coerced): (r: Result<Query, seq<Field>>)
    ensures r.Success? <==> forall f :: FieldOk(raw, f, parsesAsDate, coerce)
    ensures r.Success? ==> WellFormed(r.value) && parsesAsDate(r.value.createdAfter)
    ensures r.Failure? ==> r.error != [] && forall f :: f in r.error <==> !FieldOk(raw, f, parsesAsDate, coerce)
  {
    var issues := Issues(raw, parsesAsDate, coerce);
    if issues == [] then
      assert FieldOk(raw, Language, parsesAsDate, coerce) && FieldOk(raw, CreatedAfter, parsesAsDate, coerce)
             && FieldOk(raw, Q, parsesAsDate, coerce) && FieldOk(raw, PerPage, parsesAsDate, coerce)
             && FieldOk(raw, Page, parsesAsDate, coerce);
      Success(Query(RequiredText(raw.language).value, DateText(raw.createdAfter, parsesAsDate).value,
                    OptionalText(raw.q).value,
                    BoundedInt(raw.perPage, coerce, 1, MaxPerPage, DefaultPerPage).value,
                    BoundedInt(raw.page, coerce, 1, MaxPage, DefaultPage).value))
    else
      assert !FieldOk(raw, issues[0], parsesAsDate, coerce);
      Failure(issues)
  }

  /** `language` is accepted exactly when it is one non-empty string, and then it is kept as given. */
  lemma LanguageRule(raw: RawQuery, parsesAsDate: string -> bool, coerce: Param -> Coerced)
    ensures var r := Validate(raw, parsesAsDate, coerce);
            r.Success? ==> raw.language == Some(One(r.value.language))
    ensures (raw.language.None? || raw.language == Some(One(""))) ==>
              Validate(raw, parsesAsDate, coerce).Failure? && Language in Validate(raw, parsesAsDate, coerce).error
  {
    assert !FieldOk(raw, Language, parsesAsDate, coerce) ==> Validate(raw, parsesAsDate, coerce).Failure?;
  }

  /** `created_after` is accepted exactly when it is one non-empty string that parses as a date. */
  lemma CreatedAfterRule(raw: RawQuery, parsesAsDate: string -> bool, coerce: Param -> Coerced)
    ensures var r := Validate(raw, parsesAsDate, coerce);
            r.Success? ==> raw.createdAfter == Some(One(r.value.createdAfter)) && parsesAsDate(r.value.createdAfter)
    ensures (forall s :: raw.createdAfter == Some(One(s)) ==> s == "" || !parsesAsDate(s)) ==>
              Validate(raw, parsesAsDate, coerce).Failure? && CreatedAfter in Validate(raw, parsesAsDate, coerce).error
  {
    assert !FieldOk(raw, CreatedAfter, parsesAsDate, coerce) ==> Validate(raw, parsesAsDate, coerce).Failure?;
  }

  /**
   * `per_page` and `page`: absent gives the default, present is accepted
   * exactly when it coerces to an integer in range, and keeps that integer.
   */
  lemma PagingRule(raw: RawQuery, parsesAsDate: string -> bool, coerce: Param -> Coerced)
    ensures var r := Validate(raw, parsesAsDate, coerce);
            r.Success? ==>
              (raw.perPage.None? ==> r.value.perPage == DefaultPerPage)
              && (raw.perPage.Some? ==> coerce(raw.perPage.value) == Integer(r.value.perPage))
              && (raw.page.None? ==> r.value.page == DefaultPage)
              && (raw.page.Some? ==> coerce(raw.page.value) == Integer(r.value.page))
    ensures raw.perPage.Some? && coerce(raw.perPage.value) == Integer(1000) ==>
              Validate(raw, parsesAsDate, coerce).Failure? && PerPage in Validate(raw, parsesAsDate, coerce).error
    ensures raw.page.Some? && coerce(raw.page.value).Integer? && coerce(raw.page.value).n > MaxPage ==>
              Validate(raw, parsesAsDate, coerce).Failure? && Page in Validate(raw, parsesAsDate, coerce).error
  {
    assert !FieldOk(raw, PerPage, parsesAsDate, coerce) ==> Validate(raw, parsesAsDate, coerce).Failure?;
    assert !FieldOk(raw, Page, parsesAsDate, coerce) ==> Validate(raw, parsesAsDate, coerce).Failure?;
  }

  /** `q` never makes a query invalid as long as it is a single string (or absent), and it is kept unchanged. */
  lemma QRule(raw: RawQuery, parsesAsDate: string -> bool, coerce: Param -> Coerced)
    ensures var r := Validate(raw, parsesAsDate, coerce);
            r.Success? ==> (raw.q.None? ==> r.value.q.None?) && (forall s :: raw.q == Some(One(s)) ==> r.value.q == Some(s))
    ensures !raw.q.Some? || raw.q.value.One? ==> Q !in (var r := Validate(raw, parsesAsDate, coerce); if r.Failure? then r.error else [])
  {
  }

  /** The request the validation tests send with `per_page=1000` is refused; the same request with `per_page=5` passes. */
  lemma PerPageExample(parsesAsDate: string -> bool, coerce: Param -> Coerced)
    requires parsesAsDate("2024-01-01") && coerce(One("1000")) == Integer(1000) && coerce(One("5")) == Integer(5)
    ensures Validate(RawQuery(Some(One("TypeScript")), Some(One("2024-01-01")), None, Some(One("1000")), None), parsesAsDate, coerce)
            == Failure([PerPage])
    ensures Validate(RawQuery(Some(One("TypeScript")), Some(One("2024-01-01")), None, Some(One("5")), None), parsesAsDate, coerce)
            == Success(Query("TypeScript", "2024-01-01", None, 5, DefaultPage))
  {
    assert [] + [] + [] + [PerPage] + [] == [PerPage];
  }
}
