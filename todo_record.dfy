/**
 * The todo record and the field rules that both servers apply before they touch
 * storage: the create check with its defaulting, and the partial-update merge with
 * its category guard. backend/server-demo.js and backend/server.js carry identical
 * copies of this logic.
 */
module TodoRecord {
  import opened Wrappers
  import opened JsValues

  /**
   * A stored todo. Fields other than `id` and `createdAt` hold whatever the request
   * body supplied, so they are JavaScript values. `createdAt` is a clock reading.
   */
  datatype Todo = Todo(
    id: int,
    title: Value,
    description: Value,
    category: Value,
    completed: Value,
    createdAt: int)

  /** The fields a successful create stores, after defaulting. */
  datatype NewFields = NewFields(title: Value, description: Value, category: Value)

  /** The body of an update request; `Undefined` marks a field the body leaves out. */
  datatype UpdateBody = UpdateBody(title: Value, description: Value, category: Value, completed: Value)

  const RequiredMessage := "Title and category are required"
  const CategoryMessage := "Category must be either \"Work\" or \"Personal\""

  /** `category === 'Work' || category === 'Personal'` */
  predicate IsKnownCategory(v: Value) {
    v == Str("Work") || v == Str("Personal")
  }

  /**
   * What the update guard lets through: a known category or any falsy value
   * (`''`, `null`, `false`, `0`).
   */
  predicate AdmissibleCategory(v: Value) {
    IsKnownCategory(v) || !Truthy(v)
  }

  /** The create check: required fields, the category enum, and `description || ''`. */
  function CheckCreate(title: Value, description: Value, category: Value): (r: Result<NewFields, string>)
    ensures r.Failure? <==> !Truthy(title) || !IsKnownCategory(category)
    ensures r.Failure? ==>
      r.error == if !Truthy(title) || !Truthy(category) then RequiredMessage else CategoryMessage
    ensures r.Success? ==>
      && r.value.title == title
      && r.value.category == category
      && IsKnownCategory(r.value.category)
      && Truthy(r.value.title)
      && (Truthy(description) ==> r.value.description == description)
      && (!Truthy(description) ==> r.value.description == Str(""))
  {
    if !Truthy(title) || !Truthy(category) then Failure(RequiredMessage)
    else if category != Str("Work") && category != Str("Personal") then Failure(CategoryMessage)
    else Success(NewFields(title, Or(description, Str("")), category))
  }

  /** `given !== undefined ? given : current` */
  function Keep(given: Value, current: Value): Value {
    if given != Undefined then given else current
  }

  /**
   * The partial update: every field the body leaves undefined keeps its stored
   * value, `id` and `createdAt` never change, and the merged category must be
   * falsy or known.
   */
  function ApplyUpdate(existing: Todo, body: UpdateBody): (r: Result<Todo, string>)
    ensures r.Failure? <==> !AdmissibleCategory(if body.category == Undefined then existing.category else body.category)
    ensures r.Failure? ==> r.error == CategoryMessage
    ensures r.Success? ==>
      && r.value.id == existing.id
      && r.value.createdAt == existing.createdAt
      && r.value.title == (if body.title == Undefined then existing.title else body.title)
      && r.value.description == (if body.description == Undefined then existing.description else body.description)
      && r.value.category == (if body.category == Undefined then existing.category else body.category)
      && r.value.completed == (if body.completed == Undefined then existing.completed else body.completed)
      && AdmissibleCategory(r.value.category)
  {
    var updated := existing.(
      title := Keep(body.title, existing.title),
      description := Keep(body.description, existing.description),
      category := Keep(body.category, existing.category),
      completed := Keep(body.completed, existing.completed));
    if Truthy(updated.category) && updated.category != Str("Work") && updated.category != Str("Personal") then
      Failure(CategoryMessage)
    else
      Success(updated)
  }

  /**
   * An update that sets only `completed` changes nothing but `completed`, and is
   * never rejected when the stored category is admissible.
   */
  lemma CompletedOnlyUpdate(existing: Todo, completed: Value)
    requires AdmissibleCategory(existing.category)
    ensures ApplyUpdate(existing, UpdateBody(Undefined, Undefined, Undefined, completed))
      == Success(existing.(completed := Keep(completed, existing.completed)))
  {
  }

  /**
   * The category guard lets a falsy merged category through, so an update can
   * store a category outside {Work, Personal}.
   */
  lemma EmptyCategoryAccepted(existing: Todo)
    ensures ApplyUpdate(existing, UpdateBody(Undefined, Undefined, Str(""), Undefined))
      == Success(existing.(category := Str("")))
    ensures !IsKnownCategory(Str(""))
  {
  }
}
