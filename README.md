# todo-ai-agent backend, modelled in Dafny

This project models the deterministic core of the todo-ai-agent backend, an Express
server for todos with an optional "smart" create path. The smart path parses free text
with a language model and checks the business and date it names against web search
results. The model covers four pieces and proves properties of each:

- **In-memory demo store** (`backend/server-demo.js`). This is the `todos` list with
  its `nextId` counter and the list, get, create, update and delete handlers. It is a
  class `DemoStore.TodoStore` with a `seq` field, and its methods change it in place.
  The store invariant `Valid()` is preserved by every handler:
  - ids are distinct;
  - every id is below `nextId`;
  - every category is Work, Personal or falsy.

  Each handler states its whole new state; a rejected request leaves the store unchanged.
- **Validation orchestrator** (`backend/services/todoValidation.js`). `validateTodo` is
  a method that assigns the status and appends issues step by step. Its result is
  pinned to a closed form: the three step functions `HoursStep`, `InfoStep` and
  `DateStep`, and `FinalStatus`. The module also has the date check, the date/time
  combination, the location record, and the two alternative generators.
- **Business lookup** (`backend/services/tavily.js`). The snippet fold of
  `extractBusinessInfo` is a loop proved equal to the specification function
  `Consolidate`. `Consolidate` is built from:
  - `Matching`, the hits that mention the business, in order;
  - `FirstHit`, first match wins, per field;
  - `SourcesOf`.

  The module also has the first-pattern rule of `extractHours`, the closed-day
  heuristic, the business-name cleanup, and the fixed records of the unconfigured and
  failing searches.
- **Route field logic** (`backend/server.js`). The category filter, the create check,
  the partial update, the text guard, the `/create` field resolution and the search
  limit clamp are functions or methods from request fields to an outcome. The outcome
  is `Ok`, `BadRequest`, `NotFound`, or `ServerError` for an update the table's
  column constraints refuse. The database is reduced to the rows a query would read.

The JavaScript values that arrive in request bodies and model answers are the datatype
`JsValues.Value`. JavaScript truthiness is modelled exactly. The string built-ins the
code relies on are modelled too, with the limits listed under "Left out": `trim`,
`includes`, `split(c)[0]`, `substring(0, n)`, `join`, `toLowerCase` and `parseInt`.

Everything outside the process is a parameter:
- `Services` carries the parsed record, the lookup result and the suggestion object.
- `Transport` is the answer of the search endpoint.
- `Extractors` holds the regular-expression extractors.
- `parseDay` stands for `new Date(...)`, with `None` for an invalid date.
- Dates are whole day numbers, and day 0 is Thursday, 1 January 1970.

### Behaviour of the code that differs from what its schema and names suggest

- **Update accepts a falsy category.** The `todos` table allows only Work or Personal
  (`category VARCHAR(50) NOT NULL CHECK (category IN ('Work', 'Personal'))`,
  `backend/migrations/001_create_todos_table.js:21`). The update guard in both servers
  (`backend/server-demo.js:130`, `backend/server.js:96`) nevertheless lets any falsy
  merged category through: `''`, `null`, `false` or `0`.
  - The demo store has no table, so it stores such a category. Its invariant is
    therefore "known or falsy" (`TodoRecord.AdmissibleCategory`), and
    `TodoRecord.EmptyCategoryAccepted` shows an update that stores `''`.
  - In `backend/server.js` the UPDATE then breaks the column constraint, and the catch
    answers 500 (`server.js:100-108`). `ServerRoutes.UpdateRoute` answers `ServerError`
    there, and `ServerRoutes.FalsyCategoryUpdateFails` states it.
- **The date step can lower the status.** It assigns `warning` unconditionally
  (`backend/services/todoValidation.js:53`), so it can lower an earlier
  `requires_attention`. The severity is therefore not a maximum over the steps.
  `TodoValidation.DateStepLowersStatus` proves this, and
  `TodoValidation.EscalatesWithoutDateIssue` proves that the steps do escalate when
  there is no date issue.
- **An unparseable date empties the alternatives.** An `alternative_dates` entry appears
  iff some issue is a `business_hours` issue, except when the date is present but
  unparseable. In that case `toISOString` throws inside `generateAlternatives`, and the
  catch returns `[]`, which also drops any `alternative_businesses` entry.
  `TodoValidation.GenerateAlternatives` states this case.
- **Listing all todos changes the stored order.** With no category filter, the demo
  list handler sorts the store in place (`backend/server-demo.js:45`, `:52`). A GET
  therefore changes the stored order. `DemoStore.TodoStore.List` states this.

## Model

| member | source | states |
|---|---|---|
| JsValues.Trim | backend/server.js:134 | the trimmed text is the input with exactly its leading and trailing white space removed: a contiguous block of the input, everything before and after it white space, and its own first and last characters not white space |
| JsValues.TrimEmptyIff | backend/server.js:134 | `text.trim() === ''` exactly when every character of the text is white space |
| JsValues.TrimIdempotent | backend/server.js:134-138 | trimming the already trimmed text changes nothing |
| JsValues.Take | backend/services/tavily.js:75 | `substring(0, n)` gives the first `n` characters, or the whole text when it is shorter |
| JsValues.ParseIntOfNumberToString | backend/server-demo.js:65 | `parseInt(String(n)) === n` for every integer `n`, so a numeric id survives the URL path |
| TodoRecord.CheckCreate | backend/server.js:59-70 | create fails iff the title is falsy or the category is not Work/Personal, with the message the source picks for each case; on success it stores the given title and category and `description \|\| ''` |
| TodoRecord.ApplyUpdate | backend/server.js:90-98 | each field left undefined keeps its stored value, id and creation time never change, and the update fails iff the merged category is truthy and not Work/Personal |
| TodoRecord.CompletedOnlyUpdate | backend/server-demo.js:122-134 | an update that sends only `completed` changes only `completed` and is never rejected |
| TodoRecord.EmptyCategoryAccepted | backend/server-demo.js:130-134 | an update with category `''` is accepted and stores a category outside {Work, Personal} |
| DemoStore.FindIndex | backend/server-demo.js:114 | the found index is the first todo whose id equals `parseInt(id)`; `None` iff no todo has that id |
| DemoStore.FilterCategory | backend/server-demo.js:47-49 | the filtered list is never longer than the store |
| DemoStore.FilterCategoryMembers | backend/server-demo.js:47-49 | a todo is in the filtered list iff it is in the store and has the requested category |
| DemoStore.FilterCategoryAppend | backend/server-demo.js:47-49 | the filter distributes over concatenation, so the kept todos stay in store order |
| DemoStore.FilterCategoryCreatedAt | backend/server-demo.js:47-49 | filtering by category and picking the todos of one time commute |
| DemoStore.FilteredListKeepsStoreOrder | backend/server-demo.js:46-52 | in a filtered list the todos of any one time are that time's todos of the store with the category, in store order |
| DemoStore.InsertNewest | backend/server-demo.js:52 | inserting one todo makes the list exactly one longer |
| DemoStore.InsertNewestPermutes | backend/server-demo.js:52 | inserting adds exactly the inserted todo to the multiset of todos |
| DemoStore.InsertNewestSorted | backend/server-demo.js:52 | inserting into a newest-first list keeps it newest-first |
| DemoStore.SortNewestFirst | backend/server-demo.js:52 | the sorted list is newest-first and a permutation of its input |
| DemoStore.InsertNewestStable | backend/server-demo.js:52 | insertion keeps the relative order of the todos created at any one time |
| DemoStore.SortNewestFirstStable | backend/server-demo.js:52 | the sort is stable: todos created at the same time keep their relative order |
| DemoStore.SeedListOrder | backend/server-demo.js:12-39 | for the three clock readings of the samples, taken in order and never going back, listing the fresh store gives the newest first, and samples read at the same instant in their written order, for each of the four possible tie patterns |
| DemoStore.SortNewestFirstDistinct | backend/server-demo.js:52 | sorting the store keeps its ids distinct |
| DemoStore.DeleteRemovesExactlyOne | backend/server-demo.js:152 | `splice(i, 1)` removes exactly the element at `i`: one fewer element, the rest kept in order, and no remaining todo with that id |
| DemoStore.LookupAfterCreate | backend/server-demo.js:62-69 | a todo appended with an id above all stored ids is found, at the end, by the string form of its id |
| DemoStore.TodoStore.constructor | backend/server-demo.js:12-39 | the store starts with the three samples (ids 1 to 3), each stamped by its own clock reading, and `nextId = 4`, satisfying the invariant |
| DemoStore.TodoStore.List | backend/server-demo.js:42-59 | the answer is newest-first; a known category gives the sorted filtered copy and leaves the store alone, and any other value sorts the store itself and returns it; the invariant is kept |
| DemoStore.TodoStore.Get | backend/server-demo.js:62-76 | the answer is a stored todo with id `parseInt(id)`, or not-found exactly when no stored todo has that id |
| DemoStore.TodoStore.Create | backend/server-demo.js:79-106 | a missing title or category, or an unknown category, is rejected with the store unchanged; otherwise one todo with id `nextId`, `completed = false` and `description \|\| ''` is appended and `nextId` grows by one; the invariant is kept |
| DemoStore.TodoStore.Update | backend/server-demo.js:109-140 | an absent id gives not-found and a rejected merge gives 400, both with the store unchanged; otherwise only the found element is replaced by the merge; the invariant is kept |
| DemoStore.TodoStore.Delete | backend/server-demo.js:143-158 | an absent id gives not-found with the store unchanged; otherwise the first todo with that id is returned and removed, and the others keep their order; the invariant is kept |
| Tavily.FirstMatchesMeaning | backend/services/tavily.js:107-114 | the hours text is `None` iff no pattern matches; otherwise it is the first three matches of the first matching pattern, joined by ", " |
| Tavily.ExtractHours | backend/services/tavily.js:100-115 | the loop with its early return computes exactly the first-pattern-wins result |
| Tavily.MatchingAppend | backend/services/tavily.js:65-70 | the mention filter distributes over concatenation, so the kept hits keep their input order |
| Tavily.MatchingMembers | backend/services/tavily.js:65-70 | a hit is kept iff its lowercased title or content contains the lowercased business name |
| Tavily.ToSource | backend/services/tavily.js:72-76 | a source keeps the title and url, and its content is the hit's content cut to its first 300 characters |
| Tavily.SourcesOf | backend/services/tavily.js:72-76 | there is one source per kept hit, in order |
| Tavily.FirstHit | backend/services/tavily.js:78-91 | a field after the loop is either unset or a non-empty string |
| Tavily.FirstHitIsFirst | backend/services/tavily.js:78-91 | a field is unset iff no kept hit yields a value for it; otherwise it holds the value of the first hit that yields one |
| Tavily.FirstHitNeverOverwritten | backend/services/tavily.js:78-91 | once a field is set, later hits never change it |
| Tavily.Consolidate | backend/services/tavily.js:54-98 | the record keeps the given name, its status is `found` iff hours were found and `limited_info` otherwise (never `unknown`), and it has at most one source per result |
| Tavily.ExtractBusinessInfo | backend/services/tavily.js:54-98 | the loop produces exactly `Consolidate`, and it throws exactly when the name is not a string and there is a result |
| Tavily.SearchBusiness | backend/services/tavily.js:13-52 | without a key the `api_not_configured` record; on a transport failure or a throw in the fold the `unknown` record; otherwise the consolidated record; status `unknown` iff the key is set and the call or the fold fails |
| Tavily.ValidateBusinessHours | backend/services/tavily.js:142-181 | missing hours or a missing date gives the insufficient-information answer; otherwise the hours are valid iff the text does not mention both "closed" and the weekday's first three letters, with the closed reason naming the day and its three suggestions (another day, confirm the hours, look for alternatives) when closed, and the open reason with its single call-ahead suggestion when open |
| Tavily.ExtractBusinessName | backend/services/tavily.js:214-216 | the name is the trimmed part of the title before its first '-' or '\|'; it contains neither, has no white space at either end, and uses only characters of the title |
| Tavily.ExtractBusinessNameIdempotent | backend/services/tavily.js:214-216 | cleaning an already cleaned name changes nothing |
| Tavily.SearchNearbyBusinesses | backend/services/tavily.js:183-212 | no key, a failed call, or a hit without a title gives `[]`; otherwise one entry per hit, in order, whose name is the cleaned title, whose description is the content cut to 200 characters, and which keeps url and title |
| TodoValidation.ValidateDate | backend/services/todoValidation.js:87-120 | an unparseable date gives "Invalid date format" with the format suggestions, and a day before today gives "Date is in the past" with the future-date suggestions; the date is valid iff it parses to today or later, and then the reason is "Date is valid" with no suggestions |
| TodoValidation.CombineDateAndTime | backend/services/todoValidation.js:122-134 | there is no schedule iff there is no date; with a time the schedule is the text `date` followed by `T` and the time; without one it is the date itself |
| TodoValidation.ScheduleKeepsDate | backend/services/todoValidation.js:122-134 | a date text without a `T` is recovered from the combined schedule as the part before its first `T` |
| TodoValidation.ExtractLocationData | backend/services/todoValidation.js:136-144 | the query is the parsed location; the address is `undefined` without a consolidated record, the record's address when it has one, and `null` exactly when it has none |
| TodoValidation.LocationAddressIsFirstFound | backend/services/todoValidation.js:136-144 | after a lookup the stored address is the first address any hit mentioning the business yields, and `null` iff no such hit yields one |
| TodoValidation.StepsInIssueOrder | backend/services/todoValidation.js:16-59 | the issues come in the order business_hours, business_info, date, with at most one of each |
| TodoValidation.SegmentsInIssueOrder | backend/services/todoValidation.js:16-59 | lists holding only hours issues, only info issues and only date issues, at most one each, concatenated in that order are in issue order |
| TodoValidation.ValidateTodo | backend/services/todoValidation.js:10-85 | status and issues equal the closed form of the three steps; a lookup happens iff a business name and a location were parsed, and without one no business issue arises; suggestions are requested iff there is an issue; the status is never `pending` |
| TodoValidation.EscalatesWithoutDateIssue | backend/services/todoValidation.js:30-47 | without a date issue the status is the most severe one a step asked for |
| TodoValidation.DateStepLowersStatus | backend/services/todoValidation.js:50-59 | with a lookup that has no hours and an unparseable date, both issues are raised and the status ends at `warning`, not `requires_attention` |
| TodoValidation.DefaultRecordIsValid | backend/services/todoValidation.js:12-80 | the fallback parse record leads to no lookup, no issue, status `valid` and no schedule |
| TodoValidation.GenerateDateAlternatives | backend/services/todoValidation.js:193-206 | no date gives `[]`; an invalid date throws; otherwise the answer is exactly the three following days, in increasing order |
| TodoValidation.GenerateAlternatives | backend/services/todoValidation.js:146-191 | an `alternative_dates` entry appears iff some issue is `business_hours` and the date conversion does not throw, and it is last and holds the three days after the date (none without a date); an `alternative_businesses` entry comes first iff a business was looked up and the nearby search found any, with one option per nearby business carrying its name and description in order; a throw makes the answer `[]` |
| ServerRoutes.ListFilter | backend/server.js:20-27 | the list is filtered iff the category is exactly "Work" or "Personal" |
| ServerRoutes.ListRoute | backend/server.js:18-35 | the rows returned are newest-first, and a row is returned iff it is stored and, under a known category, has that category; each selected row comes back exactly once (the multiset of the filtered rows, or of all rows without a filter) |
| ServerRoutes.UpdateRoute | backend/server.js:80-110 | an absent row gives not-found; a truthy merged category other than Work/Personal gives 400; a merge the table refuses (null title, falsy category) gives 500; otherwise each undefined field keeps the stored value, id and creation time are kept, and the category is Work or Personal |
| ServerRoutes.FalsyCategoryUpdateFails | backend/server.js:96-108 | an update whose merged category is falsy passes the guard but answers 500 |
| ServerRoutes.ValidateText | backend/server.js:132-136 | the text is accepted iff it is a string with a non-white-space character, and is passed on trimmed |
| ServerRoutes.ValidateTextIdempotent | backend/server.js:134-138 | text the guard passed on, sent again, passes unchanged |
| ServerRoutes.ValidateRoute | backend/server.js:130-149 | 400 with the text-required message exactly for text the guard rejects; otherwise the validation of the trimmed text, whose lookup, issues, status, suggestions, schedule and location are the closed form of the three validation steps |
| ServerRoutes.ResolveFields | backend/server.js:157-175 | an explicit title is kept and a missing one is taken from a truthy parsed task; a missing description becomes `Parsed from: "<untrimmed text>"` only after validation; a truthy parsed category replaces the requested one, which defaults to Personal |
| ServerRoutes.ResolveCreate | backend/server.js:157-212 | 400 with the title message iff neither the request nor the parsed task gives a title; the stored category is always Work or Personal, and an unknown one becomes Personal; the ten stored values fall back to `''`, the text, null and `pending` when no validation ran, and otherwise come from the validation result |
| ServerRoutes.CreateWithValidation | backend/server.js:152-212 | validation runs iff the text is a string with a non-white-space character, on the trimmed text; an explicit title wins over the parsed task, and 400 iff neither gives one; the parsed category wins over the requested one, and the stored category is always Work or Personal; `pending` iff no validation ran; with a validation, the stored text is the trimmed text and the stored status is the one the three validation steps determine |
| ServerRoutes.SearchLimit | backend/server.js:268-276 | the limit is never above 10 and never 0; a missing, non-numeric or zero limit gives 5; otherwise it is `min(parseInt(limit), 10)` |
| ServerRoutes.SearchLimitOfDecimal | backend/server.js:276 | a limit written as a number from 1 to 10 is taken as it is |
| ServerRoutes.SearchBusinessesRoute | backend/server.js:266-291 | 400 iff type or location is missing or empty; otherwise it echoes both with the limit `SearchLimit` gives and the nearby search results |

## Left out

- The PostgreSQL pool, the SQL query strings and the migrations. These are
  database I/O. A route gets the rows its query would read, and returns the values it
  would insert or update.
- Express routing, CORS and JSON middleware, `app.listen` and status-code
  serialisation. These are HTTP plumbing. The outcomes are datatypes
  (`DemoStore.Response`, `ServerRoutes.Outcome`).
- The health endpoints of both servers. They only report constants and the store size.
- GET `/api/todos/suggestions/:todoId`. This route is outside the modelled core. It
  reads `todo.validation_issues`, which is not a column of the migrations, so it
  always passes `[]`.
- `backend/services/openai.js` is not part of this model, it is a thin wrapper over the
  language-model client. Its answers are inputs (`Services.parsed`,
  `Services.suggestions`); its fallback record is `TodoValidation.DefaultParsed`.
- The HTTP calls to the search endpoint, with their query strings, depth and
  `max_results`. These are foreign calls, so `Tavily.Transport` is their answer.
- The regular expressions of `extractHours`, `extractPhone` and `extractAddress`. A regex
  engine is out of scope. They are uninterpreted functions in `Tavily.Extractors`; only
  the first-pattern-wins and at-most-three structure of `extractHours` is modelled.
- The `contact: null` field of the business records. It is never read.
- JavaScript `Date`: parsing, time zones, `toISOString` and `toLocaleDateString`.
  Dates are day numbers and `parseDay` is an uninterpreted parser.
- The `description` text of each date alternative. It is a locale rendering, so an
  alternative keeps only its day.
- The `title` and `action` constants of the alternative entries. They are fixed strings.
- Logging through `console.error` and `console.warn`.
- The catch branches of `validateDate`, `combineDateAndTime`, `validateBusinessHours`
  and of the routes. `new Date` on a string and the string operations there do not
  throw, and a failing database is outside the model.
- The exceptions the language-model calls may raise inside `validateTodo`. These are
  foreign calls.
- JsValues.Lower: follows `toLowerCase` for ASCII letters only, because Unicode case
  mapping is out of scope.
- JsValues.Take: counts code points rather than UTF-16 code units, as Dafny strings
  are sequences of characters.
- JsValues.ParseInt: reads arbitrarily long digit runs exactly, whereas JavaScript
  rounds beyond 2^53.
- The `Num` value holds whole numbers only. Fractions and `NaN` are not modelled.
- Query parameters given more than once arrive as arrays in Express. Those are not
  modelled.
- DemoStore.TodoStore.List: `created_at` is an integer clock reading. The source
  compares ISO strings through `new Date`, which orders them the same way.
- ServerRoutes.ListRoute: `ORDER BY created_at DESC` leaves the order of equal
  timestamps to the database. The model keeps table order, which is one of the orders
  allowed.
- The length limits of the table's `VARCHAR` columns. A title longer than 255
  characters makes the INSERT or UPDATE of `backend/server.js` fail with 500; the model
  stores it.
- The `completed` column's boolean parsing. A `completed` value the database cannot
  read as a boolean makes the UPDATE fail; the model stores it.
- TodoValidation.CombineDateAndTime: returns the argument handed to `new Date`, not the
  Date object. An invalid Date is still a truthy object, so `|| null` keeps it.
- ServerRoutes.ResolveCreate: a schedule that the `scheduled_datetime TIMESTAMP` column
  (`backend/migrations/002_extend_todos_intelligent_fields.js:23`) cannot read, such as
  an invalid Date, makes the INSERT of `/create` fail with 500; the model stores it.
- JsValues.NumberToString: writes every digit. `String(n)` switches to exponent
  notation from 1e21 on, which no id reaches.
