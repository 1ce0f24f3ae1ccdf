/**
 * The read side of the task controller (`getTasks`): the query object built from the
 * request's `status` and `priority`, the sort-key table, and the filter-then-sort the
 * store performs with them.
 */
module TaskQuery {
  import opened Common
  import opened TaskRecord
  import opened Ordering

  /** The `query` object passed to the store: the owner always, status and priority only when given. */
  datatype Query = Query(user: UserId, status: Option<string>, priority: Option<string>)

  /** The four entries of the sort-key table. */
  datatype SortKey =
    | NewestFirst    // { createdAt: -1 }
    | DueDateAsc     // { dueDate: 1 }
    | PriorityDesc   // { priority: -1 }
    | StatusAsc      // { status: 1 }

  /** Builds the query: owner equality, then equality on status and priority only for a truthy parameter. */
  function BuildQuery(caller: UserId, status: Option<string>, priority: Option<string>): (q: Query)
    ensures q.user == caller
    ensures q.status.Some? <==> Truthy(status)
    ensures q.priority.Some? <==> Truthy(priority)
    ensures q.status.Some? ==> q.status == status && q.status.value != ""
    ensures q.priority.Some? ==> q.priority == priority && q.priority.value != ""
  {
    Query(caller,
          if Truthy(status) then status else None,
          if Truthy(priority) then priority else None)
  }

  /** A stored task matches the query: same owner, and the same value on every field the query names. */
  predicate Matches(q: Query, t: Task)
  {
    && t.owner == q.user
    && (q.status.Some? ==> t.status == q.status)
    && (q.priority.Some? ==> t.priority == q.priority)
  }

  /** The sort-key table: three recognised names, and newest-first for anything else, absent included. */
  function ResolveSort(sort: Option<string>): (k: SortKey)
    ensures k == DueDateAsc <==> sort == Some("dueDate")
    ensures k == PriorityDesc <==> sort == Some("priority")
    ensures k == StatusAsc <==> sort == Some("status")
    ensures k == NewestFirst <==> sort != Some("dueDate") && sort != Some("priority") && sort != Some("status")
  {
    if sort == Some("dueDate") then DueDateAsc
    else if sort == Some("priority") then PriorityDesc
    else if sort == Some("status") then StatusAsc
    else NewestFirst
  }

  /** `a` may come before `b` in a listing sorted by `k`. */
  predicate Before(k: SortKey, a: Task, b: Task)
  {
    match k
    case NewestFirst => a.createdAt >= b.createdAt
    case DueDateAsc => OptTimeLe(a.dueDate, b.dueDate)
    case PriorityDesc => OptStrLe(b.priority, a.priority)
    case StatusAsc => OptStrLe(a.status, b.status)
  }

  lemma BeforeTotal(k: SortKey, a: Task, b: Task)
    ensures Before(k, a, b) || Before(k, b, a)
  {
    match k
    case NewestFirst =>
    case DueDateAsc =>
    case PriorityDesc => OptStrLeTotal(a.priority, b.priority);
    case StatusAsc => OptStrLeTotal(a.status, b.status);
  }

  lemma BeforeTransitive(k: SortKey, a: Task, b: Task, c: Task)
    requires Before(k, a, b) && Before(k, b, c)
    ensures Before(k, a, c)
  {
    match k
    case NewestFirst =>
    case DueDateAsc =>
    case PriorityDesc => OptStrLeTransitive(c.priority, b.priority, a.priority);
    case StatusAsc => OptStrLeTransitive(a.status, b.status, c.status);
  }

  /** `s` is in the order the sort key asks for. */
  ghost predicate Sorted(k: SortKey, s: seq<Task>)
  {
    forall i, j :: 0 <= i < j < |s| ==> Before(k, s[i], s[j])
  }

  /** The tasks of `s` that match `q`, in the order of `s` (the store's `find(query)`). */
  function Select(q: Query, s: seq<Task>): (r: seq<Task>)
    ensures |r| <= |s|
    ensures forall t :: t in r <==> t in s && Matches(q, t)
    ensures IdsIncreasing(s) ==> IdsIncreasing(r)
  {
    if s == [] then []
    else
      var rest := Select(q, s[1..]);
      IncreasingSplit(s);
      if Matches(q, s[0]) then
        IncreasingCons(s[0], rest);
        [s[0]] + rest
      else rest
  }

  /** Inserts `x` into `s` in front of the first element it may precede. */
  function Insert(k: SortKey, x: Task, s: seq<Task>): (r: seq<Task>)
    ensures multiset(r) == multiset(s) + multiset{x}
  {
    if s == [] then [x]
    else if Before(k, x, s[0]) then [x] + s
    else
      assert s == [s[0]] + s[1..];
      [s[0]] + Insert(k, x, s[1..])
  }

  /** Sorts `s` by `k` (the store's `.sort(sortOptions)`); equal keys keep the order of `s`. */
  function SortBy(k: SortKey, s: seq<Task>): (r: seq<Task>)
    ensures multiset(r) == multiset(s)
  {
    if s == [] then []
    else
      assert s == [s[0]] + s[1..];
      Insert(k, s[0], SortBy(k, s[1..]))
  }

  lemma IncreasingSplit(s: seq<Task>)
    requires s != []
    ensures IdsIncreasing(s) ==> IdsIncreasing(s[1..])
    ensures IdsIncreasing(s) ==> forall t :: t in s[1..] ==> s[0].id < t.id
  {
    if IdsIncreasing(s) {
      forall t | t in s[1..] ensures s[0].id < t.id {
        var j :| 0 <= j < |s[1..]| && s[1..][j] == t;
        assert s[j + 1] == t;
      }
    }
  }

  lemma IncreasingCons(a: Task, u: seq<Task>)
    ensures IdsIncreasing(u) && (forall t :: t in u ==> a.id < t.id) ==> IdsIncreasing([a] + u)
  {
    if IdsIncreasing(u) && forall t :: t in u ==> a.id < t.id {
      var r := [a] + u;
      forall i, j | 0 <= i < j < |r| ensures r[i].id < r[j].id {
        assert r[j] == u[j - 1] && r[j] in u;
        if i > 0 {
          assert r[i] == u[i - 1];
        }
      }
    }
  }

  lemma SortedTail(k: SortKey, s: seq<Task>)
    requires s != [] && Sorted(k, s)
    ensures Sorted(k, s[1..])
    ensures forall t :: t in s[1..] ==> Before(k, s[0], t)
  {
    var tail := s[1..];
    forall i, j | 0 <= i < j < |tail| ensures Before(k, tail[i], tail[j]) {
      assert tail[i] == s[i + 1] && tail[j] == s[j + 1];
    }
    forall t | t in tail ensures Before(k, s[0], t) {
      var j :| 0 <= j < |tail| && tail[j] == t;
      assert s[j + 1] == t;
    }
  }

  lemma SortedCons(k: SortKey, a: Task, u: seq<Task>)
    requires Sorted(k, u)
    requires forall t :: t in u ==> Before(k, a, t)
    ensures Sorted(k, [a] + u)
  {
    var r := [a] + u;
    forall i, j | 0 <= i < j < |r| ensures Before(k, r[i], r[j]) {
      assert r[j] == u[j - 1] && r[j] in u;
      if i > 0 {
        assert r[i] == u[i - 1];
      }
    }
  }

  lemma DistinctTail(s: seq<Task>)
    requires s != [] && IdsDistinct(s)
    ensures IdsDistinct(s[1..])
    ensures forall t :: t in s[1..] ==> t.id != s[0].id
  {
    var tail := s[1..];
    forall i, j | 0 <= i < j < |tail| ensures tail[i].id != tail[j].id {
      assert tail[i] == s[i + 1] && tail[j] == s[j + 1];
    }
    forall t | t in tail ensures t.id != s[0].id {
      var j :| 0 <= j < |tail| && tail[j] == t;
      assert s[j + 1] == t;
    }
  }

  lemma DistinctCons(a: Task, u: seq<Task>)
    requires IdsDistinct(u)
    requires forall t :: t in u ==> t.id != a.id
    ensures IdsDistinct([a] + u)
  {
    var r := [a] + u;
    forall i, j | 0 <= i < j < |r| ensures r[i].id != r[j].id {
      assert r[j] == u[j - 1] && r[j] in u;
      if i > 0 {
        assert r[i] == u[i - 1];
      }
    }
  }

  /** Every element of `Insert(k, x, s)` is `x` or an element of `s`. */
  lemma InsertElements(k: SortKey, x: Task, s: seq<Task>, y: Task)
    requires y in Insert(k, x, s)
    ensures y == x || y in s
  {
    assert y in multiset(Insert(k, x, s));
  }

  lemma {:induction false} InsertSorted(k: SortKey, x: Task, s: seq<Task>)
    requires Sorted(k, s)
    ensures Sorted(k, Insert(k, x, s))
  {
    if s == [] {
    } else if Before(k, x, s[0]) {
      SortedTail(k, s);
      forall t | t in s ensures Before(k, x, t) {
        if t != s[0] {
          assert t in s[1..] by { assert s == [s[0]] + s[1..]; }
          BeforeTransitive(k, x, s[0], t);
        }
      }
      SortedCons(k, x, s);
    } else {
      BeforeTotal(k, x, s[0]);
      SortedTail(k, s);
      InsertSorted(k, x, s[1..]);
      var u := Insert(k, x, s[1..]);
      forall y | y in u ensures Before(k, s[0], y) {
        InsertElements(k, x, s[1..], y);
      }
      SortedCons(k, s[0], u);
    }
  }

  lemma {:induction false} InsertDistinct(k: SortKey, x: Task, s: seq<Task>)
    requires IdsDistinct(s)
    requires forall y :: y in s ==> y.id != x.id
    ensures IdsDistinct(Insert(k, x, s))
  {
    if s == [] {
    } else if Before(k, x, s[0]) {
      DistinctCons(x, s);
    } else {
      DistinctTail(s);
      InsertDistinct(k, x, s[1..]);
      var u := Insert(k, x, s[1..]);
      forall y | y in u ensures y.id != s[0].id {
        InsertElements(k, x, s[1..], y);
        assert s[0] in s;
      }
      DistinctCons(s[0], u);
    }
  }

  lemma {:induction false} SortBySorted(k: SortKey, s: seq<Task>)
    ensures Sorted(k, SortBy(k, s))
  {
    if s != [] {
      SortBySorted(k, s[1..]);
      InsertSorted(k, s[0], SortBy(k, s[1..]));
    }
  }

  lemma {:induction false} SortByDistinct(k: SortKey, s: seq<Task>)
    requires IdsDistinct(s)
    ensures IdsDistinct(SortBy(k, s))
  {
    if s != [] {
      DistinctTail(s);
      SortByDistinct(k, s[1..]);
      var sorted := SortBy(k, s[1..]);
      forall y | y in sorted ensures y.id != s[0].id {
        assert y in multiset(sorted);
      }
      InsertDistinct(k, s[0], sorted);
    }
  }

  /**
   * `Task.find(query).sort(sortOptions)` over documents `docs` in the store's natural order:
   * exactly the matching documents, each once, sorted by the key.
   */
  function FindSorted(q: Query, k: SortKey, docs: seq<Task>): (r: seq<Task>)
    requires IdsIncreasing(docs)
    ensures forall t :: t in r <==> t in docs && Matches(q, t)
    ensures IdsDistinct(r)
    ensures Sorted(k, r)
  {
    var selected := Select(q, docs);
    var r := SortBy(k, selected);
    SortBySorted(k, selected);
    SortByDistinct(k, selected);
    assert forall t :: t in r <==> t in multiset(selected);
    r
  }
}
