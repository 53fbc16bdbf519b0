/** `applyFilters` of the dashboard (frontend/src/components/Dashboard.tsx):
    copy the task list, keep the tasks that match the status and priority
    filters, then sort the copy in place by due date. */
module Dashboard {
  import opened Wrappers
  import opened TaskModel

  /** The client's `Task` type; the due date is already its `getTime()` value. */
  datatype UiTask = UiTask(
    id: string,
    title: string,
    description: Option<string>,
    priority: Priority,
    status: Status,
    dueDate: Option<int>)

  datatype StatusFilter = AllStatuses | OnlyStatus(status: Status)
  datatype PriorityFilter = AllPriorities | OnlyPriority(priority: Priority)
  datatype SortOrder = Asc | Desc

  /** `t.dueDate ? new Date(t.dueDate).getTime() : 0`. */
  function DueTime(t: UiTask): int {
    if t.dueDate.Some? then t.dueDate.value else 0
  }

  /** The comparator `aDate - bDate` (asc) or `bDate - aDate` (desc) as a sort
      key: a comes first when its key is smaller. */
  function SortKey(order: SortOrder, t: UiTask): int {
    if order == Asc then DueTime(t) else -DueTime(t)
  }

  predicate SortedBy(s: seq<UiTask>, order: SortOrder) {
    forall k, l :: 0 <= k < l < |s| ==> SortKey(order, s[k]) <= SortKey(order, s[l])
  }

  /** The first `n` elements of `s` are sorted. */
  ghost predicate SortedUpTo(s: seq<UiTask>, n: int, order: SortOrder) {
    && 0 <= n <= |s|
    && forall k, l :: 0 <= k < l < n ==> SortKey(order, s[k]) <= SortKey(order, s[l])
  }

  /** The tasks of `s` whose due time is `d`, in their order in `s`. A sort is
      stable when it leaves every such sequence as it was. */
  function TiesAt(s: seq<UiTask>, d: int): seq<UiTask> {
    if s == [] then []
    else (if DueTime(s[0]) == d then [s[0]] else []) + TiesAt(s[1..], d)
  }

  /** `s` and `t` list the tasks of every due time in the same order. */
  ghost predicate SameTies(s: seq<UiTask>, t: seq<UiTask>) {
    forall d :: TiesAt(s, d) == TiesAt(t, d)
  }

  lemma {:induction false} TiesAppend(a: seq<UiTask>, b: seq<UiTask>, d: int)
    ensures TiesAt(a + b, d) == TiesAt(a, d) + TiesAt(b, d)
    decreases |a|
  {
    if a == [] {
      assert a + b == b;
    } else {
      var head := if DueTime(a[0]) == d then [a[0]] else [];
      assert (a + b)[0] == a[0];
      assert (a + b)[1..] == a[1..] + b;
      assert TiesAt(a + b, d) == head + TiesAt(a[1..] + b, d);
      TiesAppend(a[1..], b, d);
      assert TiesAt(a, d) == head + TiesAt(a[1..], d);
    }
  }

  /** Exchanging two neighbours with different due times changes no tie sequence. */
  lemma {:induction false} SwapKeepsTies(pre: seq<UiTask>, p: UiTask, q: UiTask, post: seq<UiTask>, d: int)
    requires DueTime(p) != DueTime(q)
    ensures TiesAt(pre + [p, q] + post, d) == TiesAt(pre + [q, p] + post, d)
  {
    TiesAppend(pre + [p, q], post, d);
    TiesAppend(pre, [p, q], d);
    TiesAppend(pre + [q, p], post, d);
    TiesAppend(pre, [q, p], d);
    assert [p, q][1..] == [q] && [q, p][1..] == [p];
    assert [p][1..] == [] && [q][1..] == [];
  }

  /** Whether a task survives both filters. */
  predicate Passes(t: UiTask, sf: StatusFilter, pf: PriorityFilter) {
    && (sf.OnlyStatus? ==> t.status == sf.status)
    && (pf.OnlyPriority? ==> t.priority == pf.priority)
  }

  /** `Array.prototype.filter`: the elements that satisfy `keep`, in order. */
  function Select(s: seq<UiTask>, keep: UiTask -> bool): (r: seq<UiTask>)
    ensures forall i :: 0 <= i < |r| ==> keep(r[i])
    ensures forall x :: multiset(r)[x] == if keep(x) then multiset(s)[x] else 0
  {
    if s == [] then []
    else
      var rest := Select(s[1..], keep);
      assert s == [s[0]] + s[1..];
      if keep(s[0]) then [s[0]] + rest else rest
  }

  /** `filter` distributes over concatenation, so it keeps the elements in
      their input order. */
  lemma {:induction false} SelectAppend(a: seq<UiTask>, b: seq<UiTask>, keep: UiTask -> bool)
    ensures Select(a + b, keep) == Select(a, keep) + Select(b, keep)
    decreases |a|
  {
    if a == [] {
      assert a + b == b;
    } else {
      assert (a + b)[0] == a[0];
      assert (a + b)[1..] == a[1..] + b;
      SelectAppend(a[1..], b, keep);
    }
  }

  /** A predicate that keeps everything keeps the sequence as it is. */
  lemma {:induction false} SelectAll(s: seq<UiTask>, keep: UiTask -> bool)
    requires forall x :: keep(x)
    ensures Select(s, keep) == s
    decreases |s|
  {
    if s != [] {
      SelectAll(s[1..], keep);
      assert keep(s[0]);
      assert Select(s, keep) == [s[0]] + Select(s[1..], keep);
      assert s == [s[0]] + s[1..];
    }
  }

  /** Two predicates that agree everywhere select the same elements. */
  lemma {:induction false} SelectAgree(s: seq<UiTask>, k1: UiTask -> bool, k2: UiTask -> bool)
    requires forall x :: k1(x) == k2(x)
    ensures Select(s, k1) == Select(s, k2)
    decreases |s|
  {
    if s != [] {
      SelectAgree(s[1..], k1, k2);
    }
  }

  /** Filtering twice is filtering once by both predicates. */
  lemma {:induction false} SelectSelect(s: seq<UiTask>, k1: UiTask -> bool, k2: UiTask -> bool, k: UiTask -> bool)
    requires forall x :: k(x) == (k1(x) && k2(x))
    ensures Select(Select(s, k1), k2) == Select(s, k)
    decreases |s|
  {
    if s != [] {
      SelectSelect(s[1..], k1, k2, k);
      if k1(s[0]) {
        var rest := Select(s[1..], k1);
        assert ([s[0]] + rest)[0] == s[0] && ([s[0]] + rest)[1..] == rest;
      }
    }
  }

  /** Filtering and then taking the tasks due at `d` is taking them and then
      filtering. */
  lemma {:induction false} SelectTies(s: seq<UiTask>, keep: UiTask -> bool, d: int)
    ensures TiesAt(Select(s, keep), d) == Select(TiesAt(s, d), keep)
    decreases |s|
  {
    if s != [] {
      SelectTies(s[1..], keep, d);
      var rest := Select(s[1..], keep);
      if keep(s[0]) {
        assert ([s[0]] + rest)[0] == s[0] && ([s[0]] + rest)[1..] == rest;
      }
      if DueTime(s[0]) == d {
        var ties := TiesAt(s[1..], d);
        assert ([s[0]] + ties)[0] == s[0] && ([s[0]] + ties)[1..] == ties;
      } else {
        assert TiesAt(s, d) == TiesAt(s[1..], d);
      }
    }
  }

  /** Both filters as one predicate. */
  function PassesFilters(sf: StatusFilter, pf: PriorityFilter): UiTask -> bool {
    (t: UiTask) => Passes(t, sf, pf)
  }

  /** The two `if (...) result = result.filter(...)` steps. */
  function Filtered(tasks: seq<UiTask>, sf: StatusFilter, pf: PriorityFilter): (r: seq<UiTask>)
    ensures forall i :: 0 <= i < |r| ==> Passes(r[i], sf, pf)
    ensures forall x :: multiset(r)[x] == if Passes(x, sf, pf) then multiset(tasks)[x] else 0
  {
    var byStatus := if sf.OnlyStatus? then Select(tasks, (t: UiTask) => t.status == sf.status) else tasks;
    if pf.OnlyPriority? then Select(byStatus, (t: UiTask) => t.priority == pf.priority) else byStatus
  }

  /** The tasks due at `d` that survive the filters are those of the input due
      at `d` that pass, in their input order. */
  lemma {:induction false} FilteredTies(tasks: seq<UiTask>, sf: StatusFilter, pf: PriorityFilter, d: int)
    ensures TiesAt(Filtered(tasks, sf, pf), d) == Select(TiesAt(tasks, d), PassesFilters(sf, pf))
  {
    var keep := PassesFilters(sf, pf);
    var ties := TiesAt(tasks, d);
    if sf.OnlyStatus? && pf.OnlyPriority? {
      var ks := (t: UiTask) => t.status == sf.status;
      var kp := (t: UiTask) => t.priority == pf.priority;
      SelectTies(Select(tasks, ks), kp, d);
      SelectTies(tasks, ks, d);
      SelectSelect(ties, ks, kp, keep);
    } else if sf.OnlyStatus? {
      var ks := (t: UiTask) => t.status == sf.status;
      SelectTies(tasks, ks, d);
      SelectAgree(ties, ks, keep);
    } else if pf.OnlyPriority? {
      var kp := (t: UiTask) => t.priority == pf.priority;
      SelectTies(tasks, kp, d);
      SelectAgree(ties, kp, keep);
    } else {
      SelectAll(ties, keep);
    }
  }

  /** A reordering of the filtered tasks that keeps their ties keeps the
      input order of the passing tasks due at each time. */
  lemma {:induction false} StableAfterFilter(r: seq<UiTask>, tasks: seq<UiTask>, sf: StatusFilter, pf: PriorityFilter)
    requires SameTies(r, Filtered(tasks, sf, pf))
    ensures forall d :: TiesAt(r, d) == Select(TiesAt(tasks, d), PassesFilters(sf, pf))
  {
    forall d ensures TiesAt(r, d) == Select(TiesAt(tasks, d), PassesFilters(sf, pf)) {
      FilteredTies(tasks, sf, pf, d);
    }
  }

  /** Exchanges the neighbours at `j - 1` and `j`. */
  method SwapDown(a: array<UiTask>, j: int)
    requires 0 < j < a.Length
    requires DueTime(a[j - 1]) != DueTime(a[j])
    modifies a
    ensures a[..] == old(a[..])[j - 1 := old(a[j])][j := old(a[j - 1])]
    ensures multiset(a[..]) == old(multiset(a[..]))
    ensures SameTies(a[..], old(a[..]))
  {
    ghost var pre, post := a[..j - 1], a[j + 1..];
    ghost var p, q := a[j - 1], a[j];
    assert a[..] == pre + [p, q] + post;
    a[j - 1], a[j] := a[j], a[j - 1];
    assert a[..] == pre + [q, p] + post;
    forall d ensures TiesAt(a[..], d) == TiesAt(old(a[..]), d) {
      SwapKeepsTies(pre, p, q, post, d);
    }
  }

  /** Midway through an insertion pass over `s[..i + 1]`: sorted except for the
      element at `j`, whose key is below every key after it. */
  ghost predicate Inserting(s: seq<UiTask>, i: int, j: int, order: SortOrder) {
    && 0 <= j <= i < |s|
    && (forall k, l :: 0 <= k < l <= i && k != j && l != j ==> SortKey(order, s[k]) <= SortKey(order, s[l]))
    && (forall l :: j < l <= i ==> SortKey(order, s[j]) < SortKey(order, s[l]))
  }

  /** Moving the element at `j` one place left keeps the pass in shape and
      touches nothing after `i`. */
  lemma {:induction false} InsertStep(s: seq<UiTask>, i: int, j: int, order: SortOrder)
    requires Inserting(s, i, j, order)
    requires 0 < j && SortKey(order, s[j - 1]) > SortKey(order, s[j])
    ensures Inserting(s[j - 1 := s[j]][j := s[j - 1]], i, j - 1, order)
    ensures s[j - 1 := s[j]][j := s[j - 1]][i + 1..] == s[i + 1..]
  {
  }

  /** Once the element at `j` has stopped, `s[..i + 1]` is sorted. */
  lemma {:induction false} InsertDone(s: seq<UiTask>, i: int, j: int, order: SortOrder)
    requires Inserting(s, i, j, order)
    requires j == 0 || SortKey(order, s[j - 1]) <= SortKey(order, s[j])
    ensures SortedUpTo(s, i + 1, order)
  {
  }

  /** One pass of insertion: with `a[..i]` sorted, moves `a[i]` left past every
      element with a strictly larger key, leaving `a[..i + 1]` sorted. */
  method InsertAt(a: array<UiTask>, i: int, order: SortOrder)
    requires 0 <= i < a.Length
    requires SortedUpTo(a[..], i, order)
    modifies a
    ensures SortedUpTo(a[..], i + 1, order)
    ensures a[i + 1..] == old(a[i + 1..])
    ensures multiset(a[..]) == old(multiset(a[..]))
    ensures SameTies(a[..], old(a[..]))
  {
    var j := i;
    assert Inserting(a[..], i, j, order);
    while j > 0 && SortKey(order, a[j - 1]) > SortKey(order, a[j])
      invariant Inserting(a[..], i, j, order)
      invariant a[i + 1..] == old(a[i + 1..])
      invariant multiset(a[..]) == old(multiset(a[..]))
      invariant SameTies(a[..], old(a[..]))
    {
      InsertStep(a[..], i, j, order);
      SwapDown(a, j);
      j := j - 1;
    }
    InsertDone(a[..], i, j, order);
  }

  /** `result.sort(comparator)` on the array, by insertion: sorted, a
      permutation, and stable, as `Array.prototype.sort` is. */
  method SortByDueDate(a: array<UiTask>, order: SortOrder)
    modifies a
    ensures SortedBy(a[..], order)
    ensures multiset(a[..]) == old(multiset(a[..]))
    ensures SameTies(a[..], old(a[..]))
  {
    var i := 0;
    while i < a.Length
      invariant 0 <= i <= a.Length
      invariant SortedUpTo(a[..], i, order)
      invariant multiset(a[..]) == old(multiset(a[..]))
      invariant SameTies(a[..], old(a[..]))
    {
      InsertAt(a, i, order);
      i := i + 1;
    }
  }

  /** `applyFilters(tasks)`. The input array is only read. */
  method ApplyFilters(tasks: array<UiTask>, sf: StatusFilter, pf: PriorityFilter, order: SortOrder)
    returns (result: seq<UiTask>)
    ensures forall i :: 0 <= i < |result| ==> Passes(result[i], sf, pf)
    // nothing added or lost: each task occurs as often as in the input if it passes, else never
    ensures forall x :: multiset(result)[x] == if Passes(x, sf, pf) then multiset(tasks[..])[x] else 0
    ensures order == Asc ==> forall k, l :: 0 <= k < l < |result| ==> DueTime(result[k]) <= DueTime(result[l])
    ensures order == Desc ==> forall k, l :: 0 <= k < l < |result| ==> DueTime(result[k]) >= DueTime(result[l])
    // stable: the tasks due at any one time are the passing input tasks due then, in input order
    ensures forall d :: TiesAt(result, d) == Select(TiesAt(tasks[..], d), PassesFilters(sf, pf))
  {
    var kept := Filtered(tasks[..], sf, pf);
    var copy := new UiTask[|kept|](i requires 0 <= i < |kept| => kept[i]);
    assert copy[..] == kept;
    SortByDueDate(copy, order);
    result := copy[..];
    StableAfterFilter(result, tasks[..], sf, pf);
    assert SortedBy(result, order);
  }

  /** With both filters at All nothing is filtered out: the sort receives the
      whole input, in its order. */
  lemma {:induction false} NoFilterKeepsAll(tasks: seq<UiTask>)
    ensures Filtered(tasks, AllStatuses, AllPriorities) == tasks
  {
  }
}
