/** The task table: the list query with its paging, and the row writes. */
module TaskQuery {
  import opened Text
  import opened Domain
  import opened Sorting

  // ---- WHERE ----

  predicate Matches(t: Task, f: Filter) {
    && (f.team.Some? ==> t.team == f.team.value)
    && (f.status.Some? ==> t.status == f.status.value)
    && (f.assignee.Some? ==> t.assignee == f.assignee)
  }

  function Select(tasks: seq<Task>, f: Filter): seq<Task> {
    if tasks == [] then []
    else (if Matches(tasks[0], f) then [tasks[0]] else []) + Select(tasks[1..], f)
  }

  lemma {:induction false} SelectAppend(a: seq<Task>, b: seq<Task>, f: Filter)
    ensures Select(a + b, f) == Select(a, f) + Select(b, f)
  {
    if a == [] {
      assert a + b == b;
    } else {
      assert (a + b)[1..] == a[1..] + b;
      SelectAppend(a[1..], b, f);
    }
  }

  lemma {:induction false} SelectOnlyMatching(tasks: seq<Task>, f: Filter)
    ensures forall t :: t in Select(tasks, f) <==> t in tasks && Matches(t, f)
    ensures |Select(tasks, f)| <= |tasks|
  {
    if tasks != [] {
      SelectOnlyMatching(tasks[1..], f);
      assert forall t :: t in tasks <==> t == tasks[0] || t in tasks[1..];
    }
  }

  // ---- ORDER BY created_at DESC; equal times keep the later row first, a fixed order per table ----

  function Place(t: Task, sorted: seq<Task>): seq<Task> {
    if sorted == [] || t.createdAt > sorted[0].createdAt then [t] + sorted
    else [sorted[0]] + Place(t, sorted[1..])
  }

  function NewestFirst(tasks: seq<Task>): seq<Task> {
    if tasks == [] then [] else Place(tasks[0], NewestFirst(tasks[1..]))
  }

  function Age(t: Task): int {
    0 - t.createdAt
  }

  lemma {:induction false} PlaceContents(t: Task, s: seq<Task>)
    ensures multiset(Place(t, s)) == multiset(s) + multiset{t}
    ensures forall x :: x in Place(t, s) <==> x == t || x in s
  {
    if !(s == [] || t.createdAt > s[0].createdAt) {
      PlaceContents(t, s[1..]);
      assert s == [s[0]] + s[1..];
    }
  }

  lemma {:induction false} PlaceKeepsOrder(t: Task, s: seq<Task>)
    requires Ascending(s, Age)
    ensures Ascending(Place(t, s), Age)
  {
    if !(s == [] || t.createdAt > s[0].createdAt) {
      var p := Place(t, s[1..]);
      PlaceKeepsOrder(t, s[1..]);
      PlaceContents(t, s[1..]);
      assert forall x :: x in p ==> Age(s[0]) <= Age(x);
    }
  }

  lemma {:induction false} NewestFirstContents(tasks: seq<Task>)
    ensures multiset(NewestFirst(tasks)) == multiset(tasks)
  {
    if tasks != [] {
      NewestFirstContents(tasks[1..]);
      PlaceContents(tasks[0], NewestFirst(tasks[1..]));
      assert tasks == [tasks[0]] + tasks[1..];
    }
  }

  lemma {:induction false} NewestFirstAscends(tasks: seq<Task>)
    ensures Ascending(NewestFirst(tasks), Age)
  {
    if tasks != [] {
      NewestFirstAscends(tasks[1..]);
      PlaceKeepsOrder(tasks[0], NewestFirst(tasks[1..]));
    }
  }

  /** The listing is the selected rows, sorted. */
  lemma NewestFirstSorts(tasks: seq<Task>)
    ensures Ascending(NewestFirst(tasks), Age)
    ensures multiset(NewestFirst(tasks)) == multiset(tasks)
    ensures |NewestFirst(tasks)| == |tasks|
  {
    NewestFirstAscends(tasks);
    NewestFirstContents(tasks);
    assert |multiset(NewestFirst(tasks))| == |multiset(tasks)|;
  }

  /** With distinct creation times the query order is the only one "created_at DESC" allows. */
  lemma OrderIsForced(tasks: seq<Task>, listing: seq<Task>)
    requires DistinctKeys(tasks, Age)
    requires Ascending(listing, Age) && multiset(listing) == multiset(tasks)
    ensures listing == NewestFirst(tasks)
  {
    NewestFirstSorts(tasks);
    DistinctSortsStrictly(tasks, listing, Age);
    DistinctSortsStrictly(tasks, NewestFirst(tasks), Age);
    SortedIsUnique(listing, NewestFirst(tasks), Age);
  }

  // ---- LIMIT and OFFSET ----

  const MAX64: int := 0x7fff_ffff_ffff_ffff

  /** Two's complement wrap-around of a 64-bit int. */
  function Wrap64(i: int): int {
    (i + MAX64 + 1) % (2 * (MAX64 + 1)) - (MAX64 + 1)
  }

  function Offset(f: Filter): int {
    Wrap64(Wrap64(f.page - 1) * f.limit)
  }

  function Slice(s: seq<Task>, offset: nat, limit: nat): seq<Task> {
    var from := if offset <= |s| then offset else |s|;
    var to := if offset + limit <= |s| then offset + limit else |s|;
    s[from..to]
  }

  function Ordered(tasks: seq<Task>, f: Filter): seq<Task> {
    NewestFirst(Select(tasks, f))
  }

  function Total(tasks: seq<Task>, f: Filter): nat {
    |Select(tasks, f)|
  }

  /** The page query; the database rejects a negative LIMIT or OFFSET. */
  function PageOf(tasks: seq<Task>, f: Filter): Result<seq<Task>> {
    if f.limit < 0 || Offset(f) < 0 then Err(Internal) else Ok(Slice(Ordered(tasks, f), Offset(f), f.limit))
  }

  /** The count query and the page query against one state of the table. */
  function ListTasks(tasks: seq<Task>, f: Filter): Result<CachedList> {
    var page := PageOf(tasks, f);
    if page.Err? then Err(page.error) else Ok(CachedList(page.value, Total(tasks, f)))
  }

  function Normalise(f: Filter): Filter {
    f.(page := if f.page <= 0 then 1 else f.page,
       limit := if f.limit <= 0 then 20 else if f.limit > 100 then 100 else f.limit)
  }

  predicate Normal(f: Filter) {
    f.page >= 1 && 1 <= f.limit <= 100
  }

  /** Normalising lands in the allowed ranges, changes nothing already there, and is idempotent. */
  lemma NormaliseIsRetraction(f: Filter)
    ensures Normal(Normalise(f)) && Normalise(Normalise(f)) == Normalise(f)
    ensures Normalise(f) == f <==> Normal(f)
    ensures Normalise(f).team == f.team && Normalise(f).status == f.status && Normalise(f).assignee == f.assignee
  {
  }

  lemma WrapExactIff(i: int)
    ensures Wrap64(i) == i <==> -MAX64 - 1 <= i <= MAX64
  {
  }

  lemma MulMono(a: int, b: int, c: nat)
    requires a <= b
    ensures a * c <= b * c
  {
  }

  lemma ProductFitsIff(p: nat, limit: nat)
    requires limit >= 1
    ensures p * limit <= MAX64 <==> p <= MAX64 / limit
  {
    var q := MAX64 / limit;
    assert q * limit <= MAX64 < (q + 1) * limit;
    if p <= q {
      MulMono(p, q, limit);
    } else {
      MulMono(q + 1, p, limit);
    }
  }

  /** The offset is the intended one exactly up to the last page number whose offset fits 64 bits. */
  lemma OffsetExactIff(f: Filter)
    requires Normal(f) && f.page <= MAX64
    ensures Offset(f) == (f.page - 1) * f.limit <==> f.page - 1 <= MAX64 / f.limit
  {
    WrapExactIff(f.page - 1);
    MulMono(0, f.page - 1, f.limit);
    WrapExactIff((f.page - 1) * f.limit);
    ProductFitsIff(f.page - 1, f.limit);
  }

  /** Past that bound a page far beyond the end can repeat page one. */
  lemma OverflowRepeatsFirstPage(tasks: seq<Task>, f: Filter)
    requires f.page == 0x4000_0000_0000_0001 && f.limit == 4
    ensures Normal(f) && ListTasks(tasks, f) == ListTasks(tasks, f.(page := 1))
  {
    var g := f.(page := 1);
    assert Offset(f) == 0 && Offset(g) == 0;
    SameSelection(tasks, f, g);
  }

  lemma {:induction false} SameSelection(tasks: seq<Task>, f: Filter, g: Filter)
    requires f.team == g.team && f.status == g.status && f.assignee == g.assignee
    ensures Select(tasks, f) == Select(tasks, g)
  {
    if tasks != [] { SameSelection(tasks[1..], f, g); }
  }

  // ---- the pages partition the listing ----

  function PageTasks(tasks: seq<Task>, f: Filter): seq<Task> {
    var r := ListTasks(tasks, f);
    if r.Ok? then r.value.tasks else []
  }

  function Pages(tasks: seq<Task>, f: Filter, n: nat): seq<Task> {
    if n == 0 then [] else Pages(tasks, f, n - 1) + PageTasks(tasks, f.(page := n))
  }

  function LastPage(tasks: seq<Task>, f: Filter): nat
    requires Normal(f)
  {
    (Total(tasks, f) + f.limit - 1) / f.limit
  }

  lemma PageContents(tasks: seq<Task>, f: Filter)
    requires Normal(f) && f.page <= MAX64 && (f.page - 1) * f.limit <= MAX64
    ensures ListTasks(tasks, f) == Ok(CachedList(Slice(Ordered(tasks, f), (f.page - 1) * f.limit, f.limit), Total(tasks, f)))
  {
    WrapExactIff(f.page - 1);
    WrapExactIff((f.page - 1) * f.limit);
    MulMono(0, f.page - 1, f.limit);
  }

  lemma OnePage(tasks: seq<Task>, f: Filter, n: nat)
    requires Normal(f) && 1 <= n <= MAX64 && (n - 1) * f.limit <= MAX64
    ensures 0 <= (n - 1) * f.limit
    ensures PageTasks(tasks, f.(page := n)) == Slice(Ordered(tasks, f), (n - 1) * f.limit, f.limit)
  {
    PageContents(tasks, f.(page := n));
    SameSelection(tasks, f, f.(page := n));
    MulMono(0, n - 1, f.limit);
  }

  lemma {:induction false} PagesArePrefix(tasks: seq<Task>, f: Filter, n: nat)
    requires Normal(f) && n <= MAX64 && n * f.limit <= MAX64
    ensures Pages(tasks, f, n) == Slice(Ordered(tasks, f), 0, n * f.limit)
  {
    if n > 0 {
      MulMono(0, n - 1, f.limit);
      assert n * f.limit == (n - 1) * f.limit + f.limit;
      PagesArePrefix(tasks, f, n - 1);
      OnePage(tasks, f, n);
      SliceJoin(Ordered(tasks, f), (n - 1) * f.limit, f.limit);
    }
  }

  lemma SliceJoin(s: seq<Task>, from: nat, limit: nat)
    ensures Slice(s, 0, from) + Slice(s, from, limit) == Slice(s, 0, from + limit)
  {
  }

  /** Enough pages and not one too many. */
  lemma LastPageBounds(tasks: seq<Task>, f: Filter)
    requires Normal(f)
    ensures Total(tasks, f) <= LastPage(tasks, f) * f.limit < Total(tasks, f) + f.limit
    ensures LastPage(tasks, f) <= LastPage(tasks, f) * f.limit
  {
    var n := LastPage(tasks, f);
    MulMono(1, f.limit, n);
  }

  /** Reading pages 1..last gives the whole filtered list in order, each task once. */
  lemma PagesPartition(tasks: seq<Task>, f: Filter)
    requires Normal(f) && |tasks| <= MAX64 - 100
    ensures Pages(tasks, f, LastPage(tasks, f)) == Ordered(tasks, f)
  {
    SelectOnlyMatching(tasks, f);
    NewestFirstSorts(Select(tasks, f));
    LastPageBounds(tasks, f);
    PagesArePrefix(tasks, f, LastPage(tasks, f));
    WholeSlice(Ordered(tasks, f), LastPage(tasks, f) * f.limit);
  }

  lemma WholeSlice(s: seq<Task>, limit: nat)
    requires |s| <= limit
    ensures Slice(s, 0, limit) == s
  {
  }

  /** Pages after the last one are empty, as long as their offset fits 64 bits. */
  lemma LaterPagesEmpty(tasks: seq<Task>, f: Filter)
    requires Normal(f) && LastPage(tasks, f) < f.page <= MAX64 && (f.page - 1) * f.limit <= MAX64
    ensures ListTasks(tasks, f) == Ok(CachedList([], Total(tasks, f)))
  {
    NewestFirstSorts(Select(tasks, f));
    PageContents(tasks, f);
    LastPageBounds(tasks, f);
    MulMono(LastPage(tasks, f), f.page - 1, f.limit);
    EmptySlice(Ordered(tasks, f), (f.page - 1) * f.limit, f.limit);
  }

  lemma EmptySlice(s: seq<Task>, from: nat, limit: nat)
    requires |s| <= from
    ensures Slice(s, from, limit) == []
  {
  }

  // ---- row writes ----

  predicate HasId(tasks: seq<Task>, id: Uuid) {
    exists i :: 0 <= i < |tasks| && tasks[i].id == id
  }

  function Find(tasks: seq<Task>, id: Uuid): (r: Option<Task>)
    ensures r.Some? <==> HasId(tasks, id)
    ensures r.Some? ==> r.value in tasks && r.value.id == id
  {
    if tasks == [] then None else if tasks[0].id == id then Some(tasks[0])
    else
      assert HasId(tasks[1..], id) ==> HasId(tasks, id);
      assert HasId(tasks, id) ==> HasId(tasks[1..], id) by {
        if HasId(tasks, id) {
          var i :| 0 <= i < |tasks| && tasks[i].id == id;
          assert tasks[1..][i - 1].id == id;
        }
      }
      Find(tasks[1..], id)
  }

  /** The UPDATE statement leaves id, team, creator and creation time of the row alone. */
  function Overlay(row: Task, t: Task): Task {
    row.(assignee := t.assignee, title := t.title, description := t.description, status := t.status,
      priority := t.priority, due := t.due, updatedAt := t.updatedAt)
  }

  function Overwrite(tasks: seq<Task>, t: Task): seq<Task> {
    if tasks == [] then []
    else [if tasks[0].id == t.id then Overlay(tasks[0], t) else tasks[0]] + Overwrite(tasks[1..], t)
  }

  lemma {:induction false} OverwriteAt(tasks: seq<Task>, t: Task)
    ensures |Overwrite(tasks, t)| == |tasks|
    ensures forall i :: 0 <= i < |tasks| ==>
      Overwrite(tasks, t)[i] == if tasks[i].id == t.id then Overlay(tasks[i], t) else tasks[i]
  {
    if tasks != [] { OverwriteAt(tasks[1..], t); }
  }

  lemma OverwrittenFrom(tasks: seq<Task>, t: Task, s: Task) returns (o: Task)
    requires s in Overwrite(tasks, t)
    ensures o in tasks && s == if o.id == t.id then Overlay(o, t) else o
  {
    OverwriteAt(tasks, t);
    var i :| 0 <= i < |tasks| && Overwrite(tasks, t)[i] == s;
    o := tasks[i];
  }

  /** A write to one team is invisible to the queries of every other team. */
  lemma {:induction false} OverwriteIsTeamLocal(tasks: seq<Task>, t: Task, f: Filter)
    requires f.team.Some? && forall r :: r in tasks && r.id == t.id ==> r.team != f.team.value
    ensures Select(Overwrite(tasks, t), f) == Select(tasks, f)
  {
    if tasks != [] {
      assert tasks[0] in tasks;
      OverwriteIsTeamLocal(tasks[1..], t, f);
      var o := Overwrite(tasks, t);
      assert o[1..] == Overwrite(tasks[1..], t);
    }
  }

  lemma InsertIsTeamLocal(tasks: seq<Task>, t: Task, f: Filter)
    requires f.team.Some? && t.team != f.team.value
    ensures Select(tasks + [t], f) == Select(tasks, f)
  {
    SelectAppend(tasks, [t], f);
    assert Select([t], f) == [];
  }

  /** Both queries are functions of the selected rows alone. */
  lemma SelectionDeterminesList(a: seq<Task>, b: seq<Task>, f: Filter)
    requires Select(a, f) == Select(b, f)
    ensures ListTasks(a, f) == ListTasks(b, f)
  {
  }
}
