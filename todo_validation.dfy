/**
 * The validation orchestrator of backend/services/todoValidation.js: the
 * step-by-step status and issue list of `validateTodo`, the date check, the
 * date/time combination, the location record, and the two alternative generators.
 * The language-model answers and the business lookup result are inputs; dates are
 * day numbers, and `parseDay` stands for `new Date(...)`, `None` being an invalid date.
 */
module TodoValidation {
  import opened Wrappers
  import opened JsValues
  import opened Tavily

  /** The structured record the language-model adapter extracts from a todo text. */
  datatype ParsedData = ParsedData(
    task: Value,
    date: Value,
    time: Value,
    businessName: Value,
    businessType: Value,
    location: Value,
    urgency: Value,
    category: Value)

  /** The record the adapter falls back to when it has no key or cannot parse the answer. */
  function DefaultParsed(text: string): ParsedData {
    ParsedData(Str(text), Null, Null, Null, Null, Null, Str("medium"), Str("Personal"))
  }

  /** `pending` is only ever stored by the create route; the orchestrator never yields it. */
  datatype ValidationStatus = Pending | Valid | Warning | RequiresAttention

  datatype IssueType = BusinessHoursIssue | BusinessInfoIssue | DateIssue

  datatype Issue = Issue(kind: IssueType, message: string, suggestions: seq<string>)

  /** `{query, address, coordinates: null}`; `address` is `undefined` without a consolidated record. */
  datatype LocationData = LocationData(query: Value, address: Value)

  datatype ValidationResult = ValidationResult(
    originalText: string,
    parsedData: ParsedData,
    validationStatus: ValidationStatus,
    businessInfo: Option<BusinessInfo>,
    suggestedAlternatives: Option<Value>,
    validationIssues: seq<Issue>,
    scheduledDatetime: Option<Value>,
    locationData: LocationData)

  /**
   * What the collaborators answer during one run: the parsed record, the result of
   * `searchBusiness` for its name and location, the object `generateSuggestions`
   * returns, the current day (local midnight) and the date parser.
   */
  datatype Services = Services(
    parsed: ParsedData,
    lookup: BusinessInfo,
    suggestions: Value,
    today: int,
    parseDay: Value -> Option<int>)

  // ---------------------------------------------------------------------------
  // validateDate, combineDateAndTime, extractLocationData

  datatype DateCheck = DateCheck(isValid: bool, reason: string, suggestions: seq<string>)

  /**
   * `validateDate`: an unparseable date, a day before today, or a valid day (today
   * included). The valid record has no `suggestions` field; `[]` stands for it, and
   * no caller reads it.
   */
  function ValidateDate(day: Option<int>, today: int): (r: DateCheck)
    ensures day.None? ==>
      r == DateCheck(false, "Invalid date format", ["Use format YYYY-MM-DD", "Specify a clear date"])
    ensures day.Some? && day.value < today ==>
      r == DateCheck(false, "Date is in the past", ["Choose a future date", "Update the date to today or later"])
    ensures r.isValid <==> day.Some? && day.value >= today
    ensures r.isValid ==> r.reason == "Date is valid" && r.suggestions == []
  {
    if day.None? then
      DateCheck(false, "Invalid date format", ["Use format YYYY-MM-DD", "Specify a clear date"])
    else if day.value < today then
      DateCheck(false, "Date is in the past", ["Choose a future date", "Update the date to today or later"])
    else
      DateCheck(true, "Date is valid", [])
  }

  /**
   * `combineDateAndTime(date, time)`: `null` without a date; otherwise the argument
   * handed to `new Date`, which is `${date}T${time}` when a time is given.
   */
  function CombineDateAndTime(date: Value, time: Value): (r: Option<Value>)
    ensures r.None? <==> !Truthy(date)
    ensures r.Some? && !Truthy(time) ==> r.value == date
    ensures r.Some? && Truthy(time) ==> r.value == Str(ToJsString(date) + "T" + ToJsString(time))
  {
    if !Truthy(date) then None
    else if Truthy(time) then Some(Str(ToJsString(date) + "T" + ToJsString(time)))
    else Some(date)
  }

  /**
   * A date text without a `T` (such as `YYYY-MM-DD`) is recovered from the combined
   * schedule as the part before its first `T`.
   */
  lemma ScheduleKeepsDate(date: Value, time: Value)
    requires Truthy(date) && Truthy(time) && 'T' !in ToJsString(date)
    ensures CombineDateAndTime(date, time).Some?
    ensures SplitHead(CombineDateAndTime(date, time).value.s, 'T') == ToJsString(date)
  {
    SplitHeadAtFirst(ToJsString(date), 'T', ToJsString(time));
    assert ToJsString(date) + "T" + ToJsString(time) == ToJsString(date) + ['T'] + ToJsString(time);
  }

  lemma {:induction false} SplitHeadAtFirst(a: string, c: char, b: string)
    requires c !in a
    ensures SplitHead(a + [c] + b, c) == a
  {
    if a != [] {
      SplitHeadAtFirst(a[1..], c, b);
      assert (a + [c] + b)[1..] == a[1..] + [c] + b;
    }
  }

  /** `extractLocationData(parsedData, businessInfo)` */
  function ExtractLocationData(parsed: ParsedData, businessInfo: Option<BusinessInfo>): (r: LocationData)
    ensures r.query == parsed.location
    ensures businessInfo.None? || businessInfo.value.Sentinel? ==> r.address == Undefined
    ensures businessInfo.Some? && businessInfo.value.Consolidated? ==>
      (r.address == Null <==> businessInfo.value.address.None?)
    ensures businessInfo.Some? && businessInfo.value.Consolidated? && businessInfo.value.address.Some? ==>
      r.address == Str(businessInfo.value.address.value)
  {
    var address :=
      if businessInfo.None? || businessInfo.value.Sentinel? then Undefined
      else if businessInfo.value.address.Some? then Str(businessInfo.value.address.value)
      else Null;
    LocationData(parsed.location, address)
  }

  /**
   * After a successful lookup the stored address is the first address any hit
   * mentioning the business yields, and `null` iff no such hit yields one.
   */
  lemma LocationAddressIsFirstFound(p: ParsedData, results: seq<SearchResult>, businessName: Value, ex: Extractors)
    requires businessName.Str? || results == []
    ensures var hits := Matching(results, if businessName.Str? then businessName.s else "");
      var address := ExtractLocationData(p, Some(Consolidate(results, businessName, ex))).address;
      && (address == Null <==> forall j :: 0 <= j < |hits| ==> !Present(Extract(AddressField, hits[j], ex)))
      && (address != Null ==>
            exists i :: 0 <= i < |hits| && Extract(AddressField, hits[i], ex).Some?
              && address == Str(Extract(AddressField, hits[i], ex).value)
              && forall j :: 0 <= j < i ==> !Present(Extract(AddressField, hits[j], ex)))
  {
    var hits := Matching(results, if businessName.Str? then businessName.s else "");
    FirstHitIsFirst(hits, AddressField, ex);
  }

  // ---------------------------------------------------------------------------
  // The steps of validateTodo, each as the issues it appends

  /** The business lookup runs only when both a business name and a location were extracted. */
  predicate LooksUpBusiness(p: ParsedData) {
    Truthy(p.businessName) && Truthy(p.location)
  }

  /** Step 2a: the hours heuristic, when there was a lookup and a date. */
  function HoursStep(p: ParsedData, lookup: BusinessInfo, parseDay: Value -> Option<int>): seq<Issue> {
    if LooksUpBusiness(p) && Truthy(p.date) then
      var hv := ValidateBusinessHours(lookup, p.date, parseDay);
      if !hv.isValid then [Issue(BusinessHoursIssue, hv.reason, hv.suggestions)] else []
    else []
  }

  const UnknownBusinessIssue :=
    Issue(BusinessInfoIssue, "Could not find detailed business information",
          ["Verify business name and location", "Contact business directly"])

  /** Step 2b: the lookup came back with status `unknown`. */
  function InfoStep(p: ParsedData, lookup: BusinessInfo): seq<Issue> {
    if LooksUpBusiness(p) && lookup.status == Unknown then [UnknownBusinessIssue] else []
  }

  /** Step 3: the date check, when there is a date. */
  function DateStep(p: ParsedData, today: int, parseDay: Value -> Option<int>): seq<Issue> {
    if Truthy(p.date) then
      var dv := ValidateDate(parseDay(p.date), today);
      if !dv.isValid then [Issue(DateIssue, dv.reason, dv.suggestions)] else []
    else []
  }

  /**
   * The status after the three assignments: the date step writes `warning`
   * whatever came before; the hours step writes `requires_attention`; the info
   * step raises only `valid` to `warning`.
   */
  function FinalStatus(hoursFailed: bool, infoUnknown: bool, dateFailed: bool): ValidationStatus {
    if dateFailed then Warning
    else if hoursFailed then RequiresAttention
    else if infoUnknown then Warning
    else Valid
  }

  function Rank(kind: IssueType): nat {
    match kind
    case BusinessHoursIssue => 0
    case BusinessInfoIssue => 1
    case DateIssue => 2
  }

  /** Issue kinds in strictly increasing order: at most one of each, hours before info before date. */
  ghost predicate InIssueOrder(issues: seq<Issue>) {
    forall i, j :: 0 <= i < j < |issues| ==> Rank(issues[i].kind) < Rank(issues[j].kind)
  }

  lemma StepsInIssueOrder(p: ParsedData, lookup: BusinessInfo, today: int, parseDay: Value -> Option<int>)
    ensures InIssueOrder(HoursStep(p, lookup, parseDay) + InfoStep(p, lookup) + DateStep(p, today, parseDay))
    ensures |HoursStep(p, lookup, parseDay) + InfoStep(p, lookup) + DateStep(p, today, parseDay)| <= 3
  {
    var h, n, d := HoursStep(p, lookup, parseDay), InfoStep(p, lookup), DateStep(p, today, parseDay);
    assert |h| <= 1 && |n| <= 1 && |d| <= 1;
    assert forall x :: x in h ==> x.kind == BusinessHoursIssue;
    assert forall x :: x in n ==> x.kind == BusinessInfoIssue;
    assert forall x :: x in d ==> x.kind == DateIssue;
    SegmentsInIssueOrder(h, n, d);
  }

  /** One list per kind, concatenated in rank order, is in issue order. */
  lemma SegmentsInIssueOrder(h: seq<Issue>, n: seq<Issue>, d: seq<Issue>)
    requires forall x :: x in h ==> x.kind == BusinessHoursIssue
    requires forall x :: x in n ==> x.kind == BusinessInfoIssue
    requires forall x :: x in d ==> x.kind == DateIssue
    requires |h| <= 1 && |n| <= 1 && |d| <= 1
    ensures InIssueOrder(h + n + d)
  {
    var s := h + n + d;
    forall i | 0 <= i < |s|
      ensures Rank(s[i].kind) == if i < |h| then 0 else if i < |h| + |n| then 1 else 2
    {
      if i < |h| {
        assert s[i] == h[i];
      } else if i < |h| + |n| {
        assert s[i] == n[i - |h|];
      } else {
        assert s[i] == d[i - |h| - |n|];
      }
    }
  }

  /** `validateTodo(originalText)`, with the collaborators' answers in `svc`. */
  method ValidateTodo(originalText: string, svc: Services) returns (r: ValidationResult)
    ensures r.originalText == originalText && r.parsedData == svc.parsed
    ensures r.businessInfo == if LooksUpBusiness(svc.parsed) then Some(svc.lookup) else None
    ensures r.validationIssues
      == HoursStep(svc.parsed, svc.lookup, svc.parseDay) + InfoStep(svc.parsed, svc.lookup)
         + DateStep(svc.parsed, svc.today, svc.parseDay)
    ensures r.validationStatus
      == FinalStatus(HoursStep(svc.parsed, svc.lookup, svc.parseDay) != [],
                     InfoStep(svc.parsed, svc.lookup) != [],
                     DateStep(svc.parsed, svc.today, svc.parseDay) != [])
    ensures r.validationStatus != Pending
    ensures InIssueOrder(r.validationIssues)
    ensures !LooksUpBusiness(svc.parsed) ==>
      forall i :: 0 <= i < |r.validationIssues| ==> r.validationIssues[i].kind == DateIssue
    ensures r.suggestedAlternatives == if r.validationIssues != [] then Some(svc.suggestions) else None
    ensures r.scheduledDatetime == CombineDateAndTime(svc.parsed.date, svc.parsed.time)
    ensures r.locationData == ExtractLocationData(svc.parsed, r.businessInfo)
  {
    var parsed := svc.parsed;
    var businessInfo: Option<BusinessInfo> := None;
    var validationStatus := Valid;
    var validationIssues: seq<Issue> := [];

    if Truthy(parsed.businessName) && Truthy(parsed.location) {
      businessInfo := Some(svc.lookup);
      if Truthy(parsed.date) {
        var hoursValidation := ValidateBusinessHours(svc.lookup, parsed.date, svc.parseDay);
        if !hoursValidation.isValid {
          validationStatus := RequiresAttention;
          validationIssues := validationIssues
            + [Issue(BusinessHoursIssue, hoursValidation.reason, hoursValidation.suggestions)];
        }
      }
      if svc.lookup.status == Unknown {
        validationStatus := if validationStatus == Valid then Warning else validationStatus;
        validationIssues := validationIssues + [UnknownBusinessIssue];
      }
    }
    assert validationIssues == HoursStep(parsed, svc.lookup, svc.parseDay) + InfoStep(parsed, svc.lookup);

    if Truthy(parsed.date) {
      var dateValidation := ValidateDate(svc.parseDay(parsed.date), svc.today);
      if !dateValidation.isValid {
        validationStatus := Warning;
        validationIssues := validationIssues
          + [Issue(DateIssue, dateValidation.reason, dateValidation.suggestions)];
      }
    }
    assert validationIssues == HoursStep(parsed, svc.lookup, svc.parseDay) + InfoStep(parsed, svc.lookup)
      + DateStep(parsed, svc.today, svc.parseDay);

    var suggestedAlternatives: Option<Value> := None;
    if |validationIssues| > 0 {
      suggestedAlternatives := Some(svc.suggestions);
    }

    StepsInIssueOrder(parsed, svc.lookup, svc.today, svc.parseDay);
    r := ValidationResult(originalText, parsed, validationStatus, businessInfo, suggestedAlternatives,
                          validationIssues, CombineDateAndTime(parsed.date, parsed.time),
                          ExtractLocationData(parsed, businessInfo));
  }

  function Severity(s: ValidationStatus): nat {
    match s
    case Pending => 0
    case Valid => 0
    case Warning => 1
    case RequiresAttention => 2
  }

  /**
   * Without a date issue the final status is the most severe one any step asked
   * for: `requires_attention` for an hours issue, `warning` for an unknown business.
   */
  lemma EscalatesWithoutDateIssue(hoursFailed: bool, infoUnknown: bool)
    ensures Severity(FinalStatus(hoursFailed, infoUnknown, false))
      == if hoursFailed then 2 else if infoUnknown then 1 else 0
  {
  }

  /**
   * The date step overrides an earlier `requires_attention`: a lookup without
   * hours on an unparseable date yields both issues and ends at `warning`.
   */
  lemma DateStepLowersStatus(p: ParsedData, lookup: BusinessInfo, today: int, parseDay: Value -> Option<int>)
    requires LooksUpBusiness(p) && Truthy(p.date)
    requires !Present(HoursOf(lookup)) && parseDay(p.date).None?
    ensures HoursStep(p, lookup, parseDay) != [] && DateStep(p, today, parseDay) != []
    ensures FinalStatus(HoursStep(p, lookup, parseDay) != [], InfoStep(p, lookup) != [],
                        DateStep(p, today, parseDay) != []) == Warning
  {
  }

  /**
   * With the fallback record (no key for the language model) there is no lookup,
   * no date and so no issue: status `valid`, no suggestions, no schedule.
   */
  lemma DefaultRecordIsValid(text: string, lookup: BusinessInfo, today: int, parseDay: Value -> Option<int>)
    ensures !LooksUpBusiness(DefaultParsed(text))
    ensures HoursStep(DefaultParsed(text), lookup, parseDay) + InfoStep(DefaultParsed(text), lookup)
      + DateStep(DefaultParsed(text), today, parseDay) == []
    ensures FinalStatus(false, false, false) == Valid
    ensures CombineDateAndTime(DefaultParsed(text).date, DefaultParsed(text).time) == None
  {
  }

  // ---------------------------------------------------------------------------
  // generateDateAlternatives and generateAlternatives

  const InvalidTimeValue := "Invalid time value"

  /**
   * `generateDateAlternatives(originalDate)`: `[]` without a date; otherwise the
   * seven following days are built and the first three kept. An invalid date makes
   * `toISOString` throw, here `Failure`.
   */
  method GenerateDateAlternatives(originalDate: Value, parseDay: Value -> Option<int>) returns (r: Result<seq<int>, string>)
    ensures !Truthy(originalDate) ==> r == Success([])
    ensures Truthy(originalDate) && parseDay(originalDate).None? ==> r == Failure(InvalidTimeValue)
    ensures Truthy(originalDate) && parseDay(originalDate).Some? ==>
      var base := parseDay(originalDate).value;
      r == Success([base + 1, base + 2, base + 3])
  {
    if !Truthy(originalDate) {
      return Success([]);
    }
    var baseDate := parseDay(originalDate);
    var alternatives: seq<int> := [];
    var i := 1;
    while i <= 7
      invariant 1 <= i <= 8
      invariant i > 1 ==> baseDate.Some?
      invariant baseDate.Some? ==>
        |alternatives| == i - 1 && forall k :: 0 <= k < i - 1 ==> alternatives[k] == baseDate.value + k + 1
    {
      if baseDate.None? {
        return Failure(InvalidTimeValue);
      }
      alternatives := alternatives + [baseDate.value + i];
      i := i + 1;
    }
    assert alternatives[..3] == [baseDate.value + 1, baseDate.value + 2, baseDate.value + 3];
    r := Success(alternatives[..3]);
  }

  /** An option of the `alternative_businesses` entry. */
  datatype BusinessOption = BusinessOption(name: string, description: Option<string>)

  /** The entries `generateAlternatives` can push; the date options keep only their day. */
  datatype Alternative =
    | AlternativeBusinesses(businesses: seq<BusinessOption>)
    | AlternativeDates(dates: seq<int>)

  predicate HasHoursIssue(issues: seq<Issue>) {
    exists i :: 0 <= i < |issues| && issues[i].kind == BusinessHoursIssue
  }

  /** The date conversion inside `generateAlternatives` throws exactly for a present date that does not parse. */
  predicate DateThrows(parsed: ParsedData, parseDay: Value -> Option<int>) {
    Truthy(parsed.date) && parseDay(parsed.date).None?
  }

  /**
   * `generateAlternatives(todoId, parsedData, businessInfo, validationIssues)`.
   * `nearby` is what `searchNearbyBusinesses(business_type || 'business', location, 3)`
   * returned. Any throw inside makes the whole answer `[]`.
   */
  method GenerateAlternatives(parsed: ParsedData, hasBusinessInfo: bool, issues: seq<Issue>,
                              nearby: seq<Nearby>, parseDay: Value -> Option<int>)
    returns (r: seq<Alternative>)
    ensures HasHoursIssue(issues) && DateThrows(parsed, parseDay) ==> r == []
    ensures (exists k :: 0 <= k < |r| && r[k].AlternativeDates?)
      <==> HasHoursIssue(issues) && !DateThrows(parsed, parseDay)
    ensures (exists k :: 0 <= k < |r| && r[k].AlternativeBusinesses?)
      <==> hasBusinessInfo && LooksUpBusiness(parsed) && nearby != []
           && !(HasHoursIssue(issues) && DateThrows(parsed, parseDay))
    ensures |r| <= 2
    ensures forall k :: 0 <= k < |r| && r[k].AlternativeBusinesses? ==>
      k == 0 && |r[k].businesses| == |nearby|
    ensures r != [] && r[0].AlternativeBusinesses? ==>
      forall j :: 0 <= j < |nearby| ==>
        r[0].businesses[j] == BusinessOption(nearby[j].name, nearby[j].description)
    ensures forall k :: 0 <= k < |r| && r[k].AlternativeDates? ==>
      && k == |r| - 1
      && r[k].dates
         == if Truthy(parsed.date) && parseDay(parsed.date).Some?
            then [parseDay(parsed.date).value + 1, parseDay(parsed.date).value + 2,
                  parseDay(parsed.date).value + 3]
            else []
  {
    var alternatives: seq<Alternative> := [];

    if hasBusinessInfo && Truthy(parsed.businessName) && Truthy(parsed.location) {
      if |nearby| > 0 {
        var options := seq(|nearby|, i requires 0 <= i < |nearby| =>
          BusinessOption(nearby[i].name, nearby[i].description));
        alternatives := alternatives + [AlternativeBusinesses(options)];
      }
    }
    assert alternatives != [] ==> alternatives[0].AlternativeBusinesses?;
    assert |alternatives| <= 1;
    ghost var pushedBusinesses := alternatives;

    if HasHoursIssue(issues) {
      var dates := GenerateDateAlternatives(parsed.date, parseDay);
      if dates.Failure? {
        return [];
      }
      alternatives := alternatives + [AlternativeDates(dates.value)];
      assert alternatives[|alternatives| - 1].AlternativeDates?;
    }

    r := alternatives;
    assert pushedBusinesses <= r;
    assert pushedBusinesses != [] ==> r[0].AlternativeBusinesses?;
  }
}
