/**
 * The in-memory todo store of backend/server-demo.js: a list of todos changed in
 * place and a `nextId` counter, with the list, get, create, update and delete
 * handlers as methods.
 */
module DemoStore {
  import opened Wrappers
  import opened JsValues
  import opened TodoRecord

  /** What a handler sends back; `NotFound` is the 404 "Todo not found". */
  datatype Response =
    | Found(todo: Todo)
    | Created(todo: Todo)
    | Updated(todo: Todo)
    | Deleted(todo: Todo)
    | BadRequest(error: string)
    | NotFound

  // ---------------------------------------------------------------------------
  // Properties of the todo list

  ghost predicate DistinctIds(s: seq<Todo>) {
    forall i, j :: 0 <= i < j < |s| ==> s[i].id != s[j].id
  }

  ghost predicate IdsBelow(s: seq<Todo>, bound: int) {
    forall t :: t in s ==> t.id < bound
  }

  ghost predicate CategoriesAdmissible(s: seq<Todo>) {
    forall t :: t in s ==> AdmissibleCategory(t.category)
  }

  /**
   * The three sample todos the store starts with. Each is stamped by its own
   * reading of the clock while the list literal is evaluated: `t1`, `t2`, `t3`.
   */
  function SeedTodos(t1: int, t2: int, t3: int): (r: seq<Todo>)
    ensures |r| == 3 && r[0].id == 1 && r[1].id == 2 && r[2].id == 3
    ensures r[0].createdAt == t1 && r[1].createdAt == t2 && r[2].createdAt == t3
  {
    [ Todo(1, Str("Complete project documentation"), Str("Write comprehensive docs for the todo app"),
           Str("Work"), Bool(false), t1),
      Todo(2, Str("Buy groceries"), Str("Milk, eggs, bread, vegetables"),
           Str("Personal"), Bool(false), t2),
      Todo(3, Str("Review code changes"), Str("Review the new feature implementation"),
           Str("Work"), Bool(true), t3) ]
  }

  // ---------------------------------------------------------------------------
  // findIndex and filter

  /** `todos.findIndex(t => t.id === key)`, where `None` as key is `NaN`. */
  function FindIndex(s: seq<Todo>, key: Option<int>): (r: Option<nat>)
    ensures r.Some? ==> r.value < |s| && key == Some(s[r.value].id)
    ensures r.Some? ==> forall j :: 0 <= j < r.value ==> key != Some(s[j].id)
    ensures r.None? ==> forall j :: 0 <= j < |s| ==> key != Some(s[j].id)
  {
    if s == [] then None
    else if key == Some(s[0].id) then Some(0)
    else match FindIndex(s[1..], key)
      case None => None
      case Some(k) => Some(k + 1)
  }

  /** `todos.filter(todo => todo.category === category)` */
  function FilterCategory(s: seq<Todo>, category: Value): (r: seq<Todo>)
    ensures |r| <= |s|
  {
    if s == [] then []
    else (if s[0].category == category then [s[0]] else []) + FilterCategory(s[1..], category)
  }

  /** Exactly the todos of the category are kept. */
  lemma {:induction false} FilterCategoryMembers(s: seq<Todo>, category: Value)
    ensures forall t :: t in FilterCategory(s, category) <==> t in s && t.category == category
  {
    if s != [] {
      FilterCategoryMembers(s[1..], category);
      assert s == [s[0]] + s[1..];
    }
  }

  /** The filter distributes over concatenation, so the kept todos stay in store order. */
  lemma {:induction false} FilterCategoryAppend(a: seq<Todo>, b: seq<Todo>, category: Value)
    ensures FilterCategory(a + b, category) == FilterCategory(a, category) + FilterCategory(b, category)
  {
    if a == [] {
      assert a + b == b;
    } else {
      var head := if a[0].category == category then [a[0]] else [];
      var rest, tail := FilterCategory(a[1..], category), FilterCategory(b, category);
      FilterCategoryAppend(a[1..], b, category);
      assert (a + b)[0] == a[0] && (a + b)[1..] == a[1..] + b;
      assert FilterCategory(a + b, category) == head + (rest + tail);
      assert head + (rest + tail) == (head + rest) + tail;
    }
  }

  // ---------------------------------------------------------------------------
  // Newest-first stable sort (`sort((a, b) => b.created_at - a.created_at)`)

  ghost predicate NewestFirst(s: seq<Todo>) {
    forall i, j :: 0 <= i < j < |s| ==> s[i].createdAt >= s[j].createdAt
  }

  /** The todos of `s` created at time `time`, in their order in `s`. */
  function CreatedAt(s: seq<Todo>, time: int): seq<Todo> {
    if s == [] then []
    else (if s[0].createdAt == time then [s[0]] else []) + CreatedAt(s[1..], time)
  }

  /**
   * Filtering by category and picking the todos of one time commute: the todos of
   * a time in a filtered list are that time's todos of the store, in store order.
   */
  lemma {:induction false} FilterCategoryCreatedAt(s: seq<Todo>, category: Value, time: int)
    ensures CreatedAt(FilterCategory(s, category), time) == FilterCategory(CreatedAt(s, time), category)
  {
    if s != [] {
      FilterCategoryCreatedAt(s[1..], category, time);
      var head := if s[0].category == category then [s[0]] else [];
      CreatedAtAppend(head, FilterCategory(s[1..], category), time);
      var mine := if s[0].createdAt == time then [s[0]] else [];
      FilterCategoryAppend(mine, CreatedAt(s[1..], time), category);
      if head != [] {
        assert CreatedAt(head, time) == mine by {
          assert head[1..] == [];
        }
      }
      if mine != [] {
        assert FilterCategory(mine, category) == head by {
          assert mine[1..] == [];
        }
      }
    }
  }

  lemma {:induction false} CreatedAtAppend(a: seq<Todo>, b: seq<Todo>, time: int)
    ensures CreatedAt(a + b, time) == CreatedAt(a, time) + CreatedAt(b, time)
  {
    if a == [] {
      assert a + b == b;
    } else {
      var head := if a[0].createdAt == time then [a[0]] else [];
      var rest, tail := CreatedAt(a[1..], time), CreatedAt(b, time);
      CreatedAtAppend(a[1..], b, time);
      assert a + b == [a[0]] + (a[1..] + b);
      CreatedAtCons(a[0], a[1..] + b, time);
      assert a == [a[0]] + a[1..];
      CreatedAtCons(a[0], a[1..], time);
      assert head + (rest + tail) == (head + rest) + tail;
    }
  }

  /** Inserts `x` in front of the first element that is not newer than it. */
  function InsertNewest(x: Todo, s: seq<Todo>): (r: seq<Todo>)
    ensures |r| == |s| + 1
    ensures r[0] == x || (s != [] && r[0] == s[0])
  {
    if s == [] then [x]
    else if s[0].createdAt <= x.createdAt then [x] + s
    else assert s == [s[0]] + s[1..]; [s[0]] + InsertNewest(x, s[1..])
  }

  /** Inserting adds exactly the inserted todo. */
  lemma {:induction false} InsertNewestPermutes(x: Todo, s: seq<Todo>)
    ensures multiset(InsertNewest(x, s)) == multiset(s) + multiset{x}
  {
    if s != [] && s[0].createdAt > x.createdAt {
      InsertNewestPermutes(x, s[1..]);
      assert s == [s[0]] + s[1..];
      assert InsertNewest(x, s) == [s[0]] + InsertNewest(x, s[1..]);
    }
  }

  /** Inserting into a newest-first list keeps it newest-first. */
  lemma {:induction false} InsertNewestSorted(x: Todo, s: seq<Todo>)
    requires NewestFirst(s)
    ensures NewestFirst(InsertNewest(x, s))
  {
    if s != [] && s[0].createdAt > x.createdAt {
      InsertNewestSorted(x, s[1..]);
      InsertNewestPermutes(x, s[1..]);
      var rest := InsertNewest(x, s[1..]);
      forall k | 0 <= k < |rest| ensures rest[k].createdAt <= s[0].createdAt {
        assert rest[k] in multiset(rest);
      }
      assert InsertNewest(x, s) == [s[0]] + rest;
    }
  }

  /** The stable newest-first order of `s`. */
  function SortNewestFirst(s: seq<Todo>): (r: seq<Todo>)
    ensures multiset(r) == multiset(s)
    ensures |r| == |s|
    ensures NewestFirst(r)
  {
    if s == [] then []
    else
      assert s == [s[0]] + s[1..];
      InsertNewestSorted(s[0], SortNewestFirst(s[1..]));
      InsertNewestPermutes(s[0], SortNewestFirst(s[1..]));
      InsertNewest(s[0], SortNewestFirst(s[1..]))
  }

  lemma CreatedAtCons(x: Todo, s: seq<Todo>, time: int)
    ensures CreatedAt([x] + s, time) == (if x.createdAt == time then [x] else []) + CreatedAt(s, time)
  {
    assert ([x] + s)[0] == x && ([x] + s)[1..] == s;
  }

  lemma {:induction false} InsertNewestStable(x: Todo, s: seq<Todo>, time: int)
    ensures CreatedAt(InsertNewest(x, s), time)
      == (if x.createdAt == time then [x] else []) + CreatedAt(s, time)
  {
    if s == [] {
      CreatedAtCons(x, [], time);
    } else if s[0].createdAt <= x.createdAt {
      CreatedAtCons(x, s, time);
    } else {
      var rest := InsertNewest(x, s[1..]);
      assert InsertNewest(x, s) == [s[0]] + rest;
      assert [s[0]] + s[1..] == s;
      InsertNewestStable(x, s[1..], time);
      CreatedAtCons(s[0], rest, time);
      CreatedAtCons(s[0], s[1..], time);
      OlderSwaps(s[0], x, time, CreatedAt(s[1..], time));
    }
  }

  /** `x` is strictly older than `a`, so at most one of them was created at `time`. */
  lemma OlderSwaps(a: Todo, x: Todo, time: int, tail: seq<Todo>)
    requires a.createdAt > x.createdAt
    ensures (if a.createdAt == time then [a] else []) + ((if x.createdAt == time then [x] else []) + tail)
      == (if x.createdAt == time then [x] else []) + ((if a.createdAt == time then [a] else []) + tail)
  {
  }

  /**
   * The sort is stable: todos created at the same time keep their relative order.
   * With `NewestFirst` and the multiset equality this pins the result down exactly.
   */
  lemma {:induction false} SortNewestFirstStable(s: seq<Todo>, time: int)
    ensures CreatedAt(SortNewestFirst(s), time) == CreatedAt(s, time)
  {
    if s != [] {
      SortNewestFirstStable(s[1..], time);
      InsertNewestStable(s[0], SortNewestFirst(s[1..]), time);
    }
  }

  /**
   * A filtered list shows the todos of any one time in store order: those are
   * that time's todos of the store that have the category.
   */
  lemma FilteredListKeepsStoreOrder(s: seq<Todo>, category: Value, time: int)
    ensures CreatedAt(SortNewestFirst(FilterCategory(s, category)), time)
      == FilterCategory(CreatedAt(s, time), category)
  {
    SortNewestFirstStable(FilterCategory(s, category), time);
    FilterCategoryCreatedAt(s, category, time);
  }

  /**
   * Listing the freshly seeded store, for clock readings that do not go back:
   * newest first, and samples read at the same instant in their written order.
   */
  lemma SeedListOrder(t1: int, t2: int, t3: int)
    requires t1 <= t2 <= t3
    ensures var s := SeedTodos(t1, t2, t3);
      && (t1 == t2 == t3 ==> SortNewestFirst(s) == [s[0], s[1], s[2]])
      && (t1 == t2 < t3 ==> SortNewestFirst(s) == [s[2], s[0], s[1]])
      && (t1 < t2 == t3 ==> SortNewestFirst(s) == [s[1], s[2], s[0]])
      && (t1 < t2 < t3 ==> SortNewestFirst(s) == [s[2], s[1], s[0]])
  {
    var s := SeedTodos(t1, t2, t3);
    assert s == [s[0], s[1], s[2]];
    SortThree(s[0], s[1], s[2]);
    if t1 == t2 == t3 {
      InsertAllTied(s[0], s[1], s[2]);
    } else if t1 == t2 {
      InsertFirstTwoTied(s[0], s[1], s[2]);
    } else if t2 == t3 {
      InsertLastTwoTied(s[0], s[1], s[2]);
    } else {
      InsertNoTie(s[0], s[1], s[2]);
    }
  }

  /** One unfolding of the insertion. */
  lemma InsertStep(x: Todo, s: seq<Todo>)
    ensures InsertNewest(x, s)
      == if s != [] && s[0].createdAt > x.createdAt then [s[0]] + InsertNewest(x, s[1..]) else [x] + s
  {
  }

  lemma InsertAllTied(a: Todo, b: Todo, c: Todo)
    requires a.createdAt == b.createdAt == c.createdAt
    ensures InsertNewest(a, InsertNewest(b, [c])) == [a, b, c]
  {
    InsertStep(b, [c]);
    InsertStep(a, [b, c]);
  }

  lemma InsertFirstTwoTied(a: Todo, b: Todo, c: Todo)
    requires a.createdAt == b.createdAt < c.createdAt
    ensures InsertNewest(a, InsertNewest(b, [c])) == [c, a, b]
  {
    InsertStep(b, [c]);
    InsertStep(b, []);
    InsertStep(a, [c, b]);
    assert [c, b][1..] == [b];
    InsertStep(a, [b]);
  }

  lemma InsertLastTwoTied(a: Todo, b: Todo, c: Todo)
    requires a.createdAt < b.createdAt == c.createdAt
    ensures InsertNewest(a, InsertNewest(b, [c])) == [b, c, a]
  {
    InsertStep(b, [c]);
    InsertStep(a, [b, c]);
    assert [b, c][1..] == [c];
    InsertStep(a, [c]);
    assert [c][1..] == [];
    InsertStep(a, []);
  }

  lemma InsertNoTie(a: Todo, b: Todo, c: Todo)
    requires a.createdAt < b.createdAt < c.createdAt
    ensures InsertNewest(a, InsertNewest(b, [c])) == [c, b, a]
  {
    InsertStep(b, [c]);
    assert [c][1..] == [];
    InsertStep(b, []);
    InsertStep(a, [c, b]);
    assert [c, b][1..] == [b];
    InsertStep(a, [b]);
    assert [b][1..] == [];
    InsertStep(a, []);
  }

  lemma SortThree(a: Todo, b: Todo, c: Todo)
    ensures SortNewestFirst([a, b, c]) == InsertNewest(a, InsertNewest(b, [c]))
  {
    SortStep([a, b, c]);
    assert [a, b, c][1..] == [b, c];
    SortStep([b, c]);
    assert [b, c][1..] == [c];
    SortStep([c]);
    assert [c][1..] == [];
  }

  /** One unfolding of the sort. */
  lemma SortStep(s: seq<Todo>)
    requires s != []
    ensures SortNewestFirst(s) == InsertNewest(s[0], SortNewestFirst(s[1..]))
  {
  }

  // ---------------------------------------------------------------------------
  // Facts the store invariant needs

  /** Sequences with the same multiset have the same members. */
  lemma SameMembers(a: seq<Todo>, b: seq<Todo>)
    requires multiset(a) == multiset(b)
    ensures forall t :: t in a <==> t in b
  {
    forall t ensures t in a <==> t in b {
      assert t in a <==> t in multiset(a);
      assert t in b <==> t in multiset(b);
    }
  }

  lemma SameElementsKeepProperties(a: seq<Todo>, b: seq<Todo>, bound: int)
    requires multiset(a) == multiset(b)
    requires IdsBelow(a, bound) && CategoriesAdmissible(a)
    ensures IdsBelow(b, bound) && CategoriesAdmissible(b)
  {
    SameMembers(a, b);
  }

  lemma {:induction false} InsertNewestDistinct(x: Todo, s: seq<Todo>)
    requires DistinctIds(s)
    requires forall t :: t in s ==> t.id != x.id
    ensures DistinctIds(InsertNewest(x, s))
  {
    if s != [] && s[0].createdAt > x.createdAt {
      InsertNewestDistinct(x, s[1..]);
      InsertNewestPermutes(x, s[1..]);
      var r := InsertNewest(x, s[1..]);
      forall t | t in r ensures t.id != s[0].id {
        assert t in multiset(r);
        assert t == x || t in multiset(s[1..]);
      }
    }
  }

  lemma {:induction false} SortNewestFirstDistinct(s: seq<Todo>)
    requires DistinctIds(s)
    ensures DistinctIds(SortNewestFirst(s))
  {
    if s != [] {
      SortNewestFirstDistinct(s[1..]);
      var r := SortNewestFirst(s[1..]);
      forall t | t in r ensures t.id != s[0].id {
        assert t in multiset(r);
        assert t in s[1..];
      }
      InsertNewestDistinct(s[0], r);
    }
  }

  /**
   * Deleting the element at `i` leaves a list without that id, one shorter, holding
   * every other element.
   */
  lemma DeleteRemovesExactlyOne(s: seq<Todo>, i: nat)
    requires DistinctIds(s) && i < |s|
    ensures |s[..i] + s[i + 1..]| == |s| - 1
    ensures forall t :: t in s[..i] + s[i + 1..] ==> t.id != s[i].id
    ensures multiset(s[..i] + s[i + 1..]) + multiset{s[i]} == multiset(s)
    ensures DistinctIds(s[..i] + s[i + 1..])
  {
    var r := s[..i] + s[i + 1..];
    assert s == s[..i] + [s[i]] + s[i + 1..];
    forall t | t in r ensures t.id != s[i].id {
      if t in s[..i] {
        var k :| 0 <= k < i && s[k] == t;
      } else {
        var k :| 0 <= k < |s| - i - 1 && s[i + 1..][k] == t;
        assert s[i + 1 + k] == t;
      }
    }
    forall a, b | 0 <= a < b < |r| ensures r[a].id != r[b].id {
      var a' := if a < i then a else a + 1;
      var b' := if b < i then b else b + 1;
      assert r[a] == s[a'] && r[b] == s[b'];
    }
  }

  /**
   * A todo appended with the id `nextId` is found at the end by the string form
   * of its id, the way a client reads it back with `GET /api/todos/:id`.
   */
  lemma LookupAfterCreate(s: seq<Todo>, t: Todo)
    requires forall u :: u in s ==> u.id < t.id
    ensures FindIndex(s + [t], ParseInt(NumberToString(t.id))) == Some(|s|)
  {
    ParseIntOfNumberToString(t.id);
    var key := ParseInt(NumberToString(t.id));
    assert key == Some(t.id);
    var r := s + [t];
    assert r[|s|] == t;
    forall j | 0 <= j < |s| ensures key != Some(r[j].id) {
      assert r[j] == s[j] && s[j] in s;
    }
    var k := FindIndex(r, key);
    assert k.Some?;
  }

  // ---------------------------------------------------------------------------
  // The store

  class TodoStore {
    var todos: seq<Todo>
    var nextId: int

    /** Ids are distinct and below `nextId`; categories are known or falsy. */
    ghost predicate Valid()
      reads this
    {
      DistinctIds(todos) && IdsBelow(todos, nextId) && CategoriesAdmissible(todos)
    }

    /** The module-level state at start-up: three samples and `nextId = 4`. */
    constructor (t1: int, t2: int, t3: int)
      ensures Valid()
      ensures todos == SeedTodos(t1, t2, t3) && nextId == 4
    {
      todos := SeedTodos(t1, t2, t3);
      nextId := 4;
    }

    /**
     * GET /api/todos. A known category filters into a new list; otherwise the
     * result aliases the store, so the in-place sort reorders the store itself.
     */
    method List(category: Value) returns (r: seq<Todo>)
      requires Valid()
      modifies this
      ensures Valid() && nextId == old(nextId)
      ensures NewestFirst(r)
      ensures IsKnownCategory(category) ==>
        todos == old(todos) && r == SortNewestFirst(FilterCategory(old(todos), category))
      ensures !IsKnownCategory(category) ==>
        r == SortNewestFirst(old(todos)) && todos == r
    {
      if Truthy(category) && (category == Str("Work") || category == Str("Personal")) {
        r := SortNewestFirst(FilterCategory(todos, category));
      } else {
        SortNewestFirstDistinct(todos);
        SameElementsKeepProperties(todos, SortNewestFirst(todos), nextId);
        todos := SortNewestFirst(todos);
        r := todos;
      }
    }

    /** GET /api/todos/:id */
    method Get(id: string) returns (r: Response)
      requires Valid()
      ensures r.Found? || r.NotFound?
      ensures r.Found? ==> r.todo in todos && ParseInt(id) == Some(r.todo.id)
      ensures r.NotFound? <==> forall t :: t in todos ==> ParseInt(id) != Some(t.id)
    {
      var k := FindIndex(todos, ParseInt(id));
      if k.None? {
        r := NotFound;
      } else {
        r := Found(todos[k.value]);
      }
    }

    /** POST /api/todos */
    method Create(title: Value, description: Value, category: Value, now: int) returns (r: Response)
      requires Valid()
      modifies this
      ensures Valid()
      ensures !Truthy(title) || !Truthy(category) ==>
        r == BadRequest(RequiredMessage) && unchanged(this)
      ensures Truthy(title) && Truthy(category) && !IsKnownCategory(category) ==>
        r == BadRequest(CategoryMessage) && unchanged(this)
      ensures Truthy(title) && IsKnownCategory(category) ==>
        && r == Created(Todo(old(nextId), title, Or(description, Str("")), category, Bool(false), now))
        && todos == old(todos) + [r.todo]
        && nextId == old(nextId) + 1
    {
      var checked := CheckCreate(title, description, category);
      if checked.Failure? {
        return BadRequest(checked.error);
      }
      var fields := checked.value;
      var t := Todo(nextId, fields.title, fields.description, fields.category, Bool(false), now);
      nextId := nextId + 1;
      todos := todos + [t];
      r := Created(t);
    }

    /** PUT /api/todos/:id */
    method Update(id: string, body: UpdateBody) returns (r: Response)
      requires Valid()
      modifies this
      ensures Valid() && nextId == old(nextId)
      ensures FindIndex(old(todos), ParseInt(id)).None? ==> r == NotFound && unchanged(this)
      ensures FindIndex(old(todos), ParseInt(id)).Some? ==>
        var i := FindIndex(old(todos), ParseInt(id)).value;
        match ApplyUpdate(old(todos)[i], body)
        case Failure(e) => r == BadRequest(e) && unchanged(this)
        case Success(t) => r == Updated(t) && todos == old(todos)[i := t]
    {
      var k := FindIndex(todos, ParseInt(id));
      if k.None? {
        return NotFound;
      }
      var i := k.value;
      var merged := ApplyUpdate(todos[i], body);
      if merged.Failure? {
        return BadRequest(merged.error);
      }
      var t := merged.value;
      assert todos[i] in todos;
      todos := todos[i := t];
      r := Updated(t);
    }

    /** DELETE /api/todos/:id */
    method Delete(id: string) returns (r: Response)
      requires Valid()
      modifies this
      ensures Valid() && nextId == old(nextId)
      ensures FindIndex(old(todos), ParseInt(id)).None? ==> r == NotFound && unchanged(this)
      ensures FindIndex(old(todos), ParseInt(id)).Some? ==>
        var i := FindIndex(old(todos), ParseInt(id)).value;
        r == Deleted(old(todos)[i]) && todos == old(todos)[..i] + old(todos)[i + 1..]
    {
      var k := FindIndex(todos, ParseInt(id));
      if k.None? {
        return NotFound;
      }
      var i := k.value;
      r := Deleted(todos[i]);
      DeleteRemovesExactlyOne(todos, i);
      assert forall t :: t in todos[..i] + todos[i + 1..] ==> t in multiset(todos);
      todos := todos[..i] + todos[i + 1..];
    }
  }
}
