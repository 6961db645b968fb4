/**
 * The field decisions of the database-backed routes in backend/server.js. The
 * database is abstracted away: a route gets the rows it would read (all rows, or
 * the row an id selects) and yields the outcome and the row it would write.
 */
module ServerRoutes {
  import opened Wrappers
  import opened JsValues
  import opened TodoRecord
  import DemoStore
  import opened Tavily
  import opened TodoValidation

  /**
   * How a route answers: 200/201 with a payload, 400 with a message, 404, or the
   * 500 of a statement the `todos` table refuses.
   */
  datatype Outcome<+T> = Ok(value: T) | BadRequest(error: string) | NotFound | ServerError

  // ---------------------------------------------------------------------------
  // GET /api/todos

  /** The `WHERE category = $1` parameter, if the query string selects one. */
  function ListFilter(category: Value): (r: Option<string>)
    ensures r.Some? <==> IsKnownCategory(category)
    ensures r.Some? ==> category == Str(r.value)
  {
    if Truthy(category) && (category == Str("Work") || category == Str("Personal")) then Some(category.s)
    else None
  }

  /**
   * `SELECT * FROM todos [WHERE category = $1] ORDER BY created_at DESC` over `rows`;
   * rows with equal `created_at` keep their table order here, one of the orders SQL allows.
   */
  function ListRoute(rows: seq<Todo>, category: Value): (r: seq<Todo>)
    ensures DemoStore.NewestFirst(r)
    ensures forall t :: t in r <==> t in rows && (IsKnownCategory(category) ==> t.category == category)
    ensures ListFilter(category).None? ==> multiset(r) == multiset(rows)
    ensures ListFilter(category).Some? ==>
      multiset(r) == multiset(DemoStore.FilterCategory(rows, Str(ListFilter(category).value)))
  {
    var selected := match ListFilter(category)
      case Some(c) => DemoStore.FilterCategory(rows, Str(c))
      case None => rows;
    DemoStore.FilterCategoryMembers(rows, category);
    var r := DemoStore.SortNewestFirst(selected);
    DemoStore.SameMembers(r, selected);
    r
  }

  // ---------------------------------------------------------------------------
  // PUT /api/todos/:id

  /**
   * The column constraints of the `todos` table a stored title and category must
   * meet: `title ... NOT NULL` and `category ... NOT NULL CHECK (category IN
   * ('Work', 'Personal'))`; `undefined` is bound as `null`.
   */
  predicate ColumnsFit(title: Value, category: Value) {
    !title.Null? && !title.Undefined? && IsKnownCategory(category)
  }

  /**
   * The update route, `existing` being the row `SELECT ... WHERE id = $1` found.
   * A merge the guard lets through but the table refuses (a falsy category, a null
   * title) makes the UPDATE throw, and the catch answers 500.
   */
  function UpdateRoute(existing: Option<Todo>, body: UpdateBody): (r: Outcome<Todo>)
    ensures r.NotFound? <==> existing.None?
    ensures r.BadRequest? <==>
      existing.Some? && !AdmissibleCategory(Keep(body.category, existing.value.category))
    ensures r.BadRequest? ==> r.error == CategoryMessage
    ensures r.ServerError? <==>
      && existing.Some? && AdmissibleCategory(Keep(body.category, existing.value.category))
      && !ColumnsFit(Keep(body.title, existing.value.title), Keep(body.category, existing.value.category))
    ensures r.Ok? ==> IsKnownCategory(r.value.category)
    ensures r.Ok? ==>
      && r.value.id == existing.value.id
      && r.value.createdAt == existing.value.createdAt
      && r.value.title == Keep(body.title, existing.value.title)
      && r.value.description == Keep(body.description, existing.value.description)
      && r.value.category == Keep(body.category, existing.value.category)
      && r.value.completed == Keep(body.completed, existing.value.completed)
  {
    if existing.None? then NotFound
    else match ApplyUpdate(existing.value, body)
      case Failure(e) => BadRequest(e)
      case Success(t) => if ColumnsFit(t.title, t.category) then Ok(t) else ServerError
  }

  /**
   * The guard lets a falsy category through, but the table does not store it: such
   * an update of an existing row answers 500, never 200.
   */
  lemma FalsyCategoryUpdateFails(existing: Todo, body: UpdateBody)
    requires !Truthy(Keep(body.category, existing.category))
    ensures UpdateRoute(Some(existing), body) == ServerError
  {
  }

  // ---------------------------------------------------------------------------
  // POST /api/todos/validate

  const TextRequiredMessage := "Text is required and must be a non-empty string"

  /** The text guard: a string with at least one non-white-space character, passed on trimmed. */
  function ValidateText(text: Value): (r: Result<string, string>)
    ensures r.Success? <==> text.Str? && exists i :: 0 <= i < |text.s| && !IsJsWhitespace(text.s[i])
    ensures r.Success? ==> r.value == Trim(text.s) && r.value != ""
    ensures r.Failure? ==> r.error == TextRequiredMessage
  {
    if !Truthy(text) || !text.Str? then Failure(TextRequiredMessage)
    else
      TrimEmptyIff(text.s);
      if Trim(text.s) == "" then Failure(TextRequiredMessage) else Success(Trim(text.s))
  }

  /** Text the guard passed on, sent again, passes the guard unchanged. */
  lemma ValidateTextIdempotent(text: Value)
    requires ValidateText(text).Success?
    ensures ValidateText(Str(ValidateText(text).value)) == ValidateText(text)
  {
    TrimIdempotent(text.s);
  }

  /** The validate route: the guard, then `validateTodo(text.trim())`. */
  method ValidateRoute(text: Value, svc: Services) returns (r: Outcome<ValidationResult>)
    ensures r.BadRequest? <==> ValidateText(text).Failure?
    ensures r.BadRequest? ==> r.error == TextRequiredMessage
    ensures !r.NotFound? && !r.ServerError?
    ensures r.Ok? ==> r.value.originalText == Trim(text.s) && r.value.parsedData == svc.parsed
    ensures r.Ok? ==> r.value.validationStatus != Pending
    ensures r.Ok? ==>
      && r.value.businessInfo == (if LooksUpBusiness(svc.parsed) then Some(svc.lookup) else None)
      && r.value.validationIssues
         == HoursStep(svc.parsed, svc.lookup, svc.parseDay) + InfoStep(svc.parsed, svc.lookup)
            + DateStep(svc.parsed, svc.today, svc.parseDay)
      && r.value.validationStatus
         == FinalStatus(HoursStep(svc.parsed, svc.lookup, svc.parseDay) != [],
                        InfoStep(svc.parsed, svc.lookup) != [],
                        DateStep(svc.parsed, svc.today, svc.parseDay) != [])
      && r.value.suggestedAlternatives
         == (if r.value.validationIssues != [] then Some(svc.suggestions) else None)
      && r.value.scheduledDatetime == CombineDateAndTime(svc.parsed.date, svc.parsed.time)
      && r.value.locationData == ExtractLocationData(svc.parsed, r.value.businessInfo)
  {
    match ValidateText(text)
    case Failure(e) =>
      r := BadRequest(e);
    case Success(trimmed) =>
      var v := ValidateTodo(trimmed, svc);
      r := Ok(v);
  }

  // ---------------------------------------------------------------------------
  // POST /api/todos/create

  const TitleRequiredMessage := "Title is required (either directly or through text parsing)"

  /** The ten values the create route inserts. */
  datatype InsertedRow = InsertedRow(
    title: Value,
    description: Value,
    category: Value,
    originalText: Value,
    parsedData: Option<ParsedData>,
    validationStatus: ValidationStatus,
    businessInfo: Option<BusinessInfo>,
    suggestedAlternatives: Option<Value>,
    scheduledDatetime: Option<Value>,
    locationData: Option<LocationData>)

  /** `{ todo, validation }` of the 201 answer. */
  datatype CreateAnswer = CreateAnswer(row: InsertedRow, validation: Option<ValidationResult>)

  /** The parsed record of a validation run, if one ran. */
  function ParsedOf(validation: Option<ValidationResult>): Option<ParsedData> {
    if validation.Some? then Some(validation.value.parsedData) else None
  }

  /** The category the request and the parse ask for, before the enum coercion. */
  function RequestedCategory(category: Value, parsed: Option<ParsedData>): Value {
    if parsed.Some? && Truthy(parsed.value.category) then parsed.value.category else Or(category, Str("Personal"))
  }

  /** `x || null` for an optional value. */
  function OrNull(o: Option<Value>): (r: Option<Value>)
    ensures r.Some? <==> o.Some? && Truthy(o.value)
    ensures r.Some? ==> r == o
  {
    if o.Some? && Truthy(o.value) then o else None
  }

  /**
   * The reassignments of `finalTitle`, `finalDescription` and `finalCategory` after
   * the optional validation run: the parsed task fills a missing title, the parsed
   * text a missing description, and a truthy parsed category replaces the requested one.
   */
  method ResolveFields(text: Value, title: Value, description: Value, category: Value,
                       validation: Option<ValidationResult>)
    returns (finalTitle: Value, finalDescription: Value, finalCategory: Value)
    ensures finalCategory == RequestedCategory(category, ParsedOf(validation))
    ensures Truthy(title) ==> finalTitle == title
    ensures !Truthy(title) ==>
      finalTitle == if validation.Some? && Truthy(validation.value.parsedData.task)
                    then validation.value.parsedData.task else title
    ensures Truthy(description) ==> finalDescription == description
    ensures !Truthy(description) ==>
      finalDescription
        == if validation.Some? then Str("Parsed from: \"" + ToJsString(text) + "\"") else description
  {
    finalTitle := title;
    finalDescription := description;
    finalCategory := Or(category, Str("Personal"));

    if validation.Some? {
      var v := validation.value;
      if !Truthy(finalTitle) && Truthy(v.parsedData.task) {
        finalTitle := v.parsedData.task;
      }
      if !Truthy(finalDescription) {
        finalDescription := Str("Parsed from: \"" + ToJsString(text) + "\"");
      }
      if Truthy(v.parsedData.category) {
        finalCategory := v.parsedData.category;
      }
    }
  }

  /**
   * The field resolution of the create-with-validation route after the optional
   * validation run: the title, description and category variables reassigned in
   * sequence, the 400 without a title, the coercion into {Work, Personal}, and the
   * ten inserted values with their `|| null` and `|| 'pending'` defaults.
   */
  method ResolveCreate(text: Value, title: Value, description: Value, category: Value,
                       validation: Option<ValidationResult>) returns (r: Outcome<CreateAnswer>)
    ensures !r.NotFound? && !r.ServerError?
    ensures r.BadRequest? <==> !Truthy(title) && !(validation.Some? && Truthy(validation.value.parsedData.task))
    ensures r.BadRequest? ==> r.error == TitleRequiredMessage
    ensures r.Ok? ==> r.value.validation == validation
    ensures r.Ok? ==> IsKnownCategory(r.value.row.category)
    ensures r.Ok? ==>
      var requested := RequestedCategory(category, ParsedOf(validation));
      r.value.row.category == if IsKnownCategory(requested) then requested else Str("Personal")
    ensures r.Ok? && Truthy(title) ==> r.value.row.title == title
    ensures r.Ok? && !Truthy(title) ==> r.value.row.title == validation.value.parsedData.task
    ensures r.Ok? && Truthy(description) ==> r.value.row.description == description
    ensures r.Ok? && !Truthy(description) ==>
      r.value.row.description
        == if validation.Some? then Str("Parsed from: \"" + ToJsString(text) + "\"") else Str("")
    ensures r.Ok? && validation.None? ==>
      && r.value.row.originalText == Or(text, Null)
      && r.value.row.validationStatus == Pending
      && r.value.row.parsedData.None? && r.value.row.businessInfo.None?
      && r.value.row.suggestedAlternatives.None? && r.value.row.scheduledDatetime.None?
      && r.value.row.locationData.None?
    ensures r.Ok? && validation.Some? ==>
      var v := validation.value;
      && r.value.row.originalText == Or(Str(v.originalText), Or(text, Null))
      && r.value.row.parsedData == Some(v.parsedData)
      && r.value.row.validationStatus == v.validationStatus
      && r.value.row.businessInfo == v.businessInfo
      && r.value.row.suggestedAlternatives == OrNull(v.suggestedAlternatives)
      && r.value.row.scheduledDatetime == v.scheduledDatetime
      && r.value.row.locationData == Some(v.locationData)
  {
    var finalTitle, finalDescription, finalCategory :=
      ResolveFields(text, title, description, category, validation);

    if !Truthy(finalTitle) {
      return BadRequest(TitleRequiredMessage);
    }

    if finalCategory != Str("Work") && finalCategory != Str("Personal") {
      finalCategory := Str("Personal");
    }
    assert IsKnownCategory(finalCategory);

    var row := match validation
      case None =>
        InsertedRow(finalTitle, Or(finalDescription, Str("")), finalCategory,
                    Or(text, Null), None, Pending, None, None, None, None)
      case Some(v) =>
        InsertedRow(finalTitle, Or(finalDescription, Str("")), finalCategory,
                    Or(Str(v.originalText), Or(text, Null)), Some(v.parsedData), v.validationStatus,
                    v.businessInfo, OrNull(v.suggestedAlternatives), v.scheduledDatetime, Some(v.locationData));
    r := Ok(CreateAnswer(row, validation));
  }

  /**
   * The create-with-validation route: validate the text when the guard accepts
   * it, then resolve the fields. An explicit title wins over the parsed task, the
   * parsed category over the requested one, and the stored category is always
   * Work or Personal.
   */
  method CreateWithValidation(text: Value, title: Value, description: Value, category: Value, svc: Services)
    returns (r: Outcome<CreateAnswer>)
    ensures !r.NotFound? && !r.ServerError?
    ensures r.BadRequest? <==>
      !Truthy(title) && !(ValidateText(text).Success? && Truthy(svc.parsed.task))
    ensures r.Ok? ==> IsKnownCategory(r.value.row.category)
    ensures r.Ok? ==>
      var requested := RequestedCategory(category, if ValidateText(text).Success? then Some(svc.parsed) else None);
      r.value.row.category == if IsKnownCategory(requested) then requested else Str("Personal")
    ensures r.Ok? && Truthy(title) ==> r.value.row.title == title
    ensures r.Ok? && !Truthy(title) ==> r.value.row.title == svc.parsed.task
    ensures r.Ok? ==> (r.value.row.validationStatus == Pending <==> ValidateText(text).Failure?)
    ensures r.Ok? && ValidateText(text).Failure? ==>
      r.value.validation.None? && r.value.row.originalText == Or(text, Null) && r.value.row.parsedData.None?
    ensures r.Ok? && ValidateText(text).Success? ==>
      && r.value.validation.Some?
      && r.value.row.originalText == Str(Trim(text.s))
      && r.value.row.parsedData == Some(svc.parsed)
      && r.value.row.validationStatus
         == FinalStatus(HoursStep(svc.parsed, svc.lookup, svc.parseDay) != [],
                        InfoStep(svc.parsed, svc.lookup) != [],
                        DateStep(svc.parsed, svc.today, svc.parseDay) != [])
      && r.value.row.businessInfo == (if LooksUpBusiness(svc.parsed) then Some(svc.lookup) else None)
  {
    var check := ValidateText(text);
    if check.Success? {
      var v := ValidateTodo(check.value, svc);
      assert ParsedOf(Some(v)) == Some(svc.parsed);
      assert Or(Str(v.originalText), Or(text, Null)) == Str(Trim(text.s)) by {
        assert v.originalText == check.value && check.value != "";
        assert Truthy(Str(check.value));
      }
      r := ResolveCreate(text, title, description, category, Some(v));
    } else {
      r := ResolveCreate(text, title, description, category, None);
    }
  }

  // ---------------------------------------------------------------------------
  // GET /api/search/businesses

  /**
   * `Math.min(parseInt(limit) || 5, 10)` with `limit = 5` when the query leaves it
   * out; `NaN` and `0` fall back to 5, and negative values pass through.
   */
  function SearchLimit(limit: Option<string>): (r: int)
    ensures r <= 10 && r != 0
    ensures limit.None? ==> r == 5
    ensures limit.Some? && (ParseInt(limit.value).None? || ParseInt(limit.value) == Some(0)) ==> r == 5
    ensures limit.Some? && ParseInt(limit.value).Some? && ParseInt(limit.value).value != 0 ==>
      r == if ParseInt(limit.value).value < 10 then ParseInt(limit.value).value else 10
  {
    var n := if limit.None? then 5 else match ParseInt(limit.value) case None => 5 case Some(v) => if v == 0 then 5 else v;
    if n < 10 then n else 10
  }

  /** A limit written as a decimal number from 1 to 10 is taken as it is. */
  lemma SearchLimitOfDecimal(n: int)
    requires 1 <= n <= 10
    ensures SearchLimit(Some(NumberToString(n))) == n
  {
    ParseIntOfNumberToString(n);
  }

  datatype SearchAnswer = SearchAnswer(kind: string, location: string, limit: int, results: seq<Nearby>)

  const SearchParamsMessage := "Both type and location parameters are required"

  /** The business search route over the nearby search, whose answer is `transport`. */
  function SearchBusinessesRoute(kind: Option<string>, location: Option<string>, limit: Option<string>,
                                 configured: bool, transport: Transport): (r: Outcome<SearchAnswer>)
    ensures r.BadRequest? <==> !Present(kind) || !Present(location)
    ensures r.BadRequest? ==> r.error == SearchParamsMessage
    ensures !r.NotFound? && !r.ServerError?
    ensures r.Ok? ==>
      && r.value.kind == kind.value && r.value.location == location.value
      && r.value.limit == SearchLimit(limit)
      && r.value.results == SearchNearbyBusinesses(configured, transport)
  {
    if !Present(kind) || !Present(location) then BadRequest(SearchParamsMessage)
    else Ok(SearchAnswer(kind.value, location.value, SearchLimit(limit), SearchNearbyBusinesses(configured, transport)))
  }
}
