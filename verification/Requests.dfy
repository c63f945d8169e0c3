/**
 * What each request answers and stores, column by column: the meaning of a step, said without the functions
 * that compute it.
 */
module Requests {
  import opened Text
  import opened Domain
  import opened Sorting
  import opened CacheKeys
  import opened TaskQuery
  import opened Audit
  import opened World
  import opened Transparency

  // ---- creating a task ----

  /** A created task is what was asked for, open, by the caller, as of now; it is appended and nothing else is touched. */
  lemma CreatedTask(w: World, op: Op, s: Task)
    requires op.CreateTask? && Step(w, op).1 == TaskResponse(Ok(s))
    ensures s.id == op.id && s.team == op.create.team && s.createdBy == op.caller
    ensures s.title == op.create.title && s.description == op.create.description
    ensures s.assignee == op.create.assignee && s.due == op.create.due
    ensures s.status == "todo" && s.priority == if op.create.priority == "" then "medium" else op.create.priority
    ensures s.createdAt == op.now && s.updatedAt == op.now
    ensures var v := Step(w, op).0;
      && v.tasks == w.tasks + [s] && v.born == w.born[op.id := s] && v.history == w.history
      && v.users == w.users && v.teams == w.teams && v.members == w.members
  {
  }

  /** When a task may be created, and why not otherwise. */
  lemma CreateAnswersIff(w: World, op: Op)
    requires op.CreateTask?
    ensures var (v, r) := Step(w, op);
      var caller, assignee := (op.create.team, op.caller), op.create.assignee;
      && r.TaskResponse?
      && (r.task.Ok? <==>
            && !op.faults.callerRole && caller in w.members
            && (assignee.Some? ==> !op.faults.assigneeRole && (op.create.team, assignee.value) in w.members)
            && !op.faults.write && (forall t :: t in w.tasks ==> t.id != op.id))
      && (r.task == Err(Forbidden) <==>
            !op.faults.callerRole && (caller !in w.members
              || (assignee.Some? && !op.faults.assigneeRole && (op.create.team, assignee.value) !in w.members)))
      && r.task != Err(NotFound)
      && (r.task.Err? ==> v == w)
  {
    HasIdMeans(w.tasks, op.id);
  }

  lemma HasIdMeans(tasks: seq<Task>, id: Uuid)
    ensures HasId(tasks, id) <==> exists t :: t in tasks && t.id == id
  {
    if HasId(tasks, id) {
      var i :| 0 <= i < |tasks| && tasks[i].id == id;
      assert tasks[i] in tasks;
    }
  }

  // ---- updating a task ----

  /** What an update leaves of a task: each supplied field from the input, everything else as it was. */
  predicate Becomes(t: Task, u: UpdateInput, now: nat, s: Task) {
    && s.id == t.id && s.team == t.team && s.createdBy == t.createdBy && s.createdAt == t.createdAt && s.updatedAt == now
    && s.title == (if u.title.Some? then u.title.value else t.title)
    && s.description == (if u.description.Some? then u.description else t.description)
    && s.status == (if u.status.Some? then u.status.value else t.status)
    && s.priority == (if u.priority.Some? then u.priority.value else t.priority)
    && s.assignee == (if u.assignee.Some? then u.assignee else t.assignee)
    && s.due == (if u.due.Some? then u.due else t.due)
  }

  function AssigneeColumn(a: Option<Uuid>): Option<string> {
    Some(if a.Some? then UuidText(a.value) else "")
  }

  function DueColumn(d: Option<Time>): Option<string> {
    Some(if d.Some? then DateText(d.value) else "")
  }

  /** The history row of a change from t to s: the column, both texts, who and when. */
  predicate Tells(r: HistoryRow, t: Task, s: Task, caller: Uuid, now: nat) {
    && r.task == t.id && r.changedBy == caller && r.changedAt == now
    && match r.field
       case Title => t.title != s.title && r.oldValue == Some(t.title) && r.newValue == Some(s.title)
       case Description => t.description != s.description && r.oldValue == t.description && r.newValue == s.description
       case Status => t.status != s.status && r.oldValue == Some(t.status) && r.newValue == Some(s.status)
       case Priority => t.priority != s.priority && r.oldValue == Some(t.priority) && r.newValue == Some(s.priority)
       case AssigneeId => t.assignee != s.assignee && r.oldValue == AssigneeColumn(t.assignee) && r.newValue == AssigneeColumn(s.assignee)
       case DueDate => t.due != s.due && r.oldValue == DueColumn(t.due) && r.newValue == DueColumn(s.due)
  }

  lemma UpdateStores(w: World, op: Op, s: Task)
    requires UniqueIds(w.tasks) && op.UpdateTask? && Step(w, op).1 == TaskResponse(Ok(s))
    ensures Find(w.tasks, op.task).Some?
    ensures var t := Find(w.tasks, op.task).value;
      var v := Step(w, op).0;
      && Becomes(t, op.update, op.now, s)
      && v.tasks == Overwrite(w.tasks, s)
      && v.history == w.history + Stamped(Entries(t, op.update, t.id, op.caller), op.now)
      && v.users == w.users && v.teams == w.teams && v.members == w.members && v.born == w.born
  {
  }

  /** The row with the id is the answered task; every other row is as it was. */
  lemma UpdatedTask(w: World, op: Op, s: Task) returns (i: nat)
    requires UniqueIds(w.tasks) && op.UpdateTask? && Step(w, op).1 == TaskResponse(Ok(s))
    ensures i < |w.tasks| && w.tasks[i].id == op.task && Becomes(w.tasks[i], op.update, op.now, s)
    ensures var v := Step(w, op).0;
      && v.tasks == w.tasks[i := s]
      && v.users == w.users && v.teams == w.teams && v.members == w.members && v.born == w.born
  {
    UpdateStores(w, op, s);
    var t := Find(w.tasks, op.task).value;
    i :| 0 <= i < |w.tasks| && w.tasks[i] == t;
    OverwriteOne(w.tasks, s, i);
  }

  lemma OverwriteOne(tasks: seq<Task>, s: Task, i: nat)
    requires UniqueIds(tasks) && i < |tasks| && tasks[i].id == s.id && Overlay(tasks[i], s) == s
    ensures Overwrite(tasks, s) == tasks[i := s]
  {
    OverwriteAt(tasks, s);
    assert forall j :: 0 <= j < |tasks| && j != i ==> tasks[j].id != s.id;
  }

  lemma TellsIsEntry(t: Task, u: UpdateInput, now: nat, s: Task, caller: Uuid, r: HistoryRow)
    requires Becomes(t, u, now, s)
    ensures Tells(r, t, s, caller, now) <==> Changes(t, u, r.field) && r == RowFor(t, u, caller, now, r.field)
  {
  }

  /** The history grows by exactly one row for each changed column, and no other. */
  lemma UpdateIsRecorded(w: World, op: Op, s: Task, i: nat, r: HistoryRow)
    requires UniqueIds(w.tasks) && op.UpdateTask? && Step(w, op).1 == TaskResponse(Ok(s))
    requires i < |w.tasks| && w.tasks[i].id == op.task
    ensures w.history <= Step(w, op).0.history
    ensures multiset(Step(w, op).0.history)[r] ==
      multiset(w.history)[r] + if Tells(r, w.tasks[i], s, op.caller, op.now) then 1 else 0
  {
    UpdateStores(w, op, s);
    var t := Find(w.tasks, op.task).value;
    FoundIsOnly(w.tasks, op.task, t);
    assert w.tasks[i] in w.tasks;
    var rows := Stamped(Entries(t, op.update, t.id, op.caller), op.now);
    OfCounts(rows, r.field, r);
    StampedEntry(t, op.update, op.caller, op.now, r.field);
    TellsIsEntry(t, op.update, op.now, s, op.caller, r);
  }

  /** When an update is made, and why not otherwise. */
  lemma UpdateAnswersIff(w: World, op: Op)
    requires UniqueIds(w.tasks) && op.UpdateTask?
    ensures var (v, r) := Step(w, op);
      && r.TaskResponse?
      && (r.task == Err(NotFound) <==> !op.faults.read && forall t :: t in w.tasks ==> t.id != op.task)
      && (r.task.Err? ==> v == w)
    ensures var (v, r) := Step(w, op);
      forall t :: t in w.tasks && t.id == op.task ==>
        var a := op.update.assignee;
        var reassigned := a.Some? && a != t.assignee;
        && (r.task.Ok? <==>
              && !op.faults.read && !op.faults.callerRole && (t.team, op.caller) in w.members
              && (reassigned ==> !op.faults.assigneeRole && (t.team, a.value) in w.members)
              && !op.faults.write)
        && (r.task == Err(Forbidden) <==>
              !op.faults.read && !op.faults.callerRole && ((t.team, op.caller) !in w.members
                || (reassigned && !op.faults.assigneeRole && (t.team, a.value) !in w.members)))
  {
    HasIdMeans(w.tasks, op.task);
    var found := Find(w.tasks, op.task);
    if found.Some? { FoundIsOnly(w.tasks, op.task, found.value); }
  }

  // ---- teams ----

  /** A created team has the name and the owner asked for, and the owner as its only new member. */
  lemma CreatedTeam(w: World, op: Op)
    requires op.CreateTeam?
    ensures var (v, r) := Step(w, op);
      && (r == TeamResponse(Ok(Team(op.id, op.name, op.owner, op.now))) || r == TeamResponse(Err(Internal)))
      && (r.team.Ok? <==> !op.fails && op.id !in w.teams && op.owner in w.users)
      && (r.team.Err? ==> v == w)
      && (r.team.Ok? ==> v == w.(teams := w.teams[op.id := r.team.value], members := w.members[(op.id, op.owner) := Owner]))
  {
  }

  /** Who may invite whom, and why not otherwise. */
  lemma InviteAnswersIff(w: World, op: Op)
    requires op.Invite?
    ensures var (v, r) := Step(w, op);
      var caller := (op.team, op.caller);
      && r.InviteResponse?
      && (r.invited.Ok? <==>
            && !op.faults.read && op.team in w.teams && !op.faults.callerRole
            && caller in w.members && w.members[caller] != Member
            && op.target in w.users && !op.faults.write)
      && (r.invited.Ok? ==> v == w.(members := w.members[(op.team, op.target) := Member]))
      && (r.invited == Err(Forbidden) <==>
            !op.faults.read && op.team in w.teams && !op.faults.callerRole && (caller in w.members ==> w.members[caller] == Member))
      && (r.invited.Err? ==> v == w)
  {
  }

  /** An update that read the task just before it commits is the request of the model. */
  lemma UpdateIsCommit(w: World, op: Op, s: Task, t: Task)
    requires UniqueIds(w.tasks) && op.UpdateTask? && Step(w, op).1 == TaskResponse(Ok(s)) && t in w.tasks && t.id == op.task
    ensures Step(w, op).0 == Committed(w, t, op.caller, op.update, op.now, op.inv)
  {
    HasIdMeans(w.tasks, op.task);
    FoundIsOnly(w.tasks, op.task, Find(w.tasks, op.task).value);
  }

  // ---- lists ----

  /** Who gets a list: a member of the team asked for, nobody else; the tables are never changed. */
  lemma ListAnswersOnlyMembers(w: World, op: Op)
    requires op.List?
    ensures var (v, r) := Step(w, op);
      && r.ListResponse?
      && (r.list.Ok? ==> op.filter.team.Some? && !op.faults.callerRole && (op.filter.team.value, op.caller) in w.members)
      && (r.list == Err(Forbidden) <==>
            op.filter.team.None? || (!op.faults.callerRole && (op.filter.team.value, op.caller) !in w.members))
      && r.list != Err(NotFound)
      && v == w.(cache := v.cache)
  {
  }

  /** The page asked for, and its size: page 1 and 20 tasks by default, never more than 100. */
  function PageNumber(f: Filter): int {
    if f.page <= 0 then 1 else f.page
  }

  function PageSize(f: Filter): int {
    if f.limit <= 0 then 20 else if f.limit > 100 then 100 else f.limit
  }

  /** The places in the table of the tasks asked for. */
  function Wanted(tasks: seq<Task>, f: Filter): set<int> {
    set i | 0 <= i < |tasks|
      && (f.team.Some? ==> tasks[i].team == f.team.value)
      && (f.status.Some? ==> tasks[i].status == f.status.value)
      && (f.assignee.Some? ==> tasks[i].assignee.Some? && tasks[i].assignee.value == f.assignee.value)
  }

  lemma WantedStep(tasks: seq<Task>, f: Filter)
    requires tasks != []
    ensures var n := |tasks| - 1;
      Wanted(tasks, f) == Wanted(tasks[..n], f) + if Matches(tasks[n], f) then {n} else {}
  {
    var n := |tasks| - 1;
    var rest := Wanted(tasks[..n], f);
    forall i
      ensures i in Wanted(tasks, f) <==> i in rest || (i == n && Matches(tasks[n], f))
    {
      if 0 <= i < n { assert tasks[..n][i] == tasks[i]; }
    }
  }

  lemma {:induction false} WantedCount(tasks: seq<Task>, f: Filter)
    ensures |Wanted(tasks, f)| == |Select(tasks, f)|
    decreases |tasks|
  {
    if tasks != [] {
      var n := |tasks| - 1;
      assert tasks == tasks[..n] + [tasks[n]];
      WantedCount(tasks[..n], f);
      SelectAppend(tasks[..n], [tasks[n]], f);
      WantedStep(tasks, f);
    }
  }

  lemma WantedMembers(tasks: seq<Task>, f: Filter, t: Task)
    ensures t in Select(tasks, f) <==> exists i :: i in Wanted(tasks, f) && tasks[i] == t
  {
    SelectOnlyMatching(tasks, f);
    if t in tasks && Matches(t, f) {
      var i :| 0 <= i < |tasks| && tasks[i] == t;
      assert i in Wanted(tasks, f);
    }
  }

  ghost predicate DistinctIds(s: seq<Task>) {
    forall i, j :: 0 <= i < j < |s| ==> s[i].id != s[j].id
  }

  lemma {:induction false} SelectDistinct(tasks: seq<Task>, f: Filter)
    requires DistinctIds(tasks)
    ensures DistinctIds(Select(tasks, f))
  {
    if tasks != [] {
      SelectDistinct(tasks[1..], f);
      SelectOnlyMatching(tasks[1..], f);
      assert forall t :: t in tasks[1..] ==> t.id != tasks[0].id;
    }
  }

  lemma {:induction false} PlaceDistinct(t: Task, s: seq<Task>)
    requires DistinctIds(s) && forall x :: x in s ==> x.id != t.id
    ensures DistinctIds(Place(t, s))
  {
    if s != [] && t.createdAt <= s[0].createdAt {
      PlaceDistinct(t, s[1..]);
      PlaceContents(t, s[1..]);
      assert forall x :: x in Place(t, s[1..]) ==> x.id != s[0].id;
    }
  }

  lemma {:induction false} NewestFirstDistinct(tasks: seq<Task>)
    requires DistinctIds(tasks)
    ensures DistinctIds(NewestFirst(tasks))
    ensures forall t :: t in NewestFirst(tasks) <==> t in tasks
  {
    if tasks != [] {
      NewestFirstDistinct(tasks[1..]);
      PlaceDistinct(tasks[0], NewestFirst(tasks[1..]));
      PlaceContents(tasks[0], NewestFirst(tasks[1..]));
      assert tasks == [tasks[0]] + tasks[1..];
    }
  }

  lemma SliceMeaning(s: seq<Task>, offset: nat, limit: nat)
    requires DistinctIds(s) && Ascending(s, Age)
    ensures var page := Slice(s, offset, limit);
      && (forall t :: t in page ==> t in s)
      && (forall i, j :: 0 <= i < j < |page| ==> page[i].id != page[j].id && page[i].createdAt >= page[j].createdAt)
      && |page| == if |s| <= offset then 0 else if |s| - offset < limit then |s| - offset else limit
  {
    var page := Slice(s, offset, limit);
    var from := if offset <= |s| then offset else |s|;
    assert forall k :: 0 <= k < |page| ==> page[k] == s[from + k];
    forall i, j | 0 <= i < j < |page|
      ensures page[i].id != page[j].id && page[i].createdAt >= page[j].createdAt
    {
      assert Age(s[from + i]) <= Age(s[from + j]);
    }
  }

  lemma OrderedMeaning(tasks: seq<Task>, f: Filter)
    requires UniqueIds(tasks)
    ensures var s := Ordered(tasks, f);
      && DistinctIds(s) && Ascending(s, Age) && |s| == |Wanted(tasks, f)|
      && forall t :: t in s <==> exists i :: i in Wanted(tasks, f) && tasks[i] == t
  {
    WantedCount(tasks, f);
    SelectDistinct(tasks, f);
    NewestFirstDistinct(Select(tasks, f));
    NewestFirstSorts(Select(tasks, f));
    forall t
      ensures t in Select(tasks, f) <==> exists i :: i in Wanted(tasks, f) && tasks[i] == t
    {
      WantedMembers(tasks, f, t);
    }
  }

  /** What a page of the whole listing looks like. */
  lemma PageMeaning(tasks: seq<Task>, f: Filter, page: CachedList)
    requires UniqueIds(tasks) && ListTasks(tasks, f) == Ok(page) && Normal(f)
    ensures page.total == |Wanted(tasks, f)|
    ensures forall t :: t in page.tasks ==> exists i :: i in Wanted(tasks, f) && tasks[i] == t
    ensures forall i, j :: 0 <= i < j < |page.tasks| ==>
      page.tasks[i].id != page.tasks[j].id && page.tasks[i].createdAt >= page.tasks[j].createdAt
  {
    WantedCount(tasks, f);
    OrderedMeaning(tasks, f);
    SliceMeaning(Ordered(tasks, f), Offset(f), f.limit);
  }

  lemma WantedNormalised(tasks: seq<Task>, f: Filter)
    ensures Wanted(tasks, Normalise(f)) == Wanted(tasks, f)
  {
  }

  /**
   * What an answered list holds, after any run without a list for the status "all": distinct tasks that the
   * table holds and that were asked for, newest first, and the number of all of those.
   */
  lemma ListedTasks(ops: seq<Op>, op: Op, page: CachedList)
    requires (forall i :: 0 <= i < |ops| ==> Clean(ops[i])) && Clean(op) && op.List?
    requires Step(Run(INITIAL, ops), op).1 == ListResponse(Ok(page))
    ensures var tasks := Run(INITIAL, ops).tasks;
      && page.total == |Wanted(tasks, op.filter)|
      && (forall t :: t in page.tasks ==> exists i :: i in Wanted(tasks, op.filter) && tasks[i] == t)
      && forall i, j :: 0 <= i < j < |page.tasks| ==>
           page.tasks[i].id != page.tasks[j].id && page.tasks[i].createdAt >= page.tasks[j].createdAt
  {
    var tasks := AnsweredFrom(ops, op, page);
    NormaliseIsRetraction(op.filter);
    WantedNormalised(tasks, op.filter);
    PageMeaning(tasks, Normalise(op.filter), page);
  }

  function Skipped(f: Filter): int {
    (PageNumber(f) - 1) * PageSize(f)
  }

  /** All pages are full, except for the last one and those behind it. */
  predicate RightSize(f: Filter, page: CachedList) {
    |page.tasks| == if page.total <= Skipped(f) then 0
                    else if page.total - Skipped(f) < PageSize(f) then page.total - Skipped(f)
                    else PageSize(f)
  }

  lemma PageHolds(tasks: seq<Task>, f: Filter, page: CachedList)
    requires UniqueIds(tasks) && ListTasks(tasks, Normalise(f)) == Ok(page)
    requires PageNumber(f) <= 0x7fff_ffff_ffff_ffff && Skipped(f) <= 0x7fff_ffff_ffff_ffff
    ensures RightSize(f, page)
  {
    var g := Normalise(f);
    assert g.page == PageNumber(f) && g.limit == PageSize(f);
    PageContents(tasks, g);
    WantedCount(tasks, g);
    OrderedMeaning(tasks, g);
    MulMono(0, g.page - 1, g.limit);
    SliceMeaning(Ordered(tasks, g), (g.page - 1) * g.limit, g.limit);
  }

  lemma AnsweredFrom(ops: seq<Op>, op: Op, page: CachedList) returns (tasks: seq<Task>)
    requires (forall i :: 0 <= i < |ops| ==> Clean(ops[i])) && Clean(op) && op.List?
    requires Step(Run(INITIAL, ops), op).1 == ListResponse(Ok(page))
    ensures tasks == Run(INITIAL, ops).tasks && UniqueIds(tasks) && ListTasks(tasks, Normalise(op.filter)) == Ok(page)
  {
    AnsweredListIsTrue(ops, op);
    RunKeepsCoherence(INITIAL, ops);
    tasks := Run(INITIAL, ops).tasks;
  }

  /** How many tasks an answered page holds, as long as the number of tasks skipped fits 64 bits. */
  lemma ListedSize(ops: seq<Op>, op: Op, page: CachedList)
    requires (forall i :: 0 <= i < |ops| ==> Clean(ops[i])) && Clean(op) && op.List?
    requires Step(Run(INITIAL, ops), op).1 == ListResponse(Ok(page))
    requires PageNumber(op.filter) <= 0x7fff_ffff_ffff_ffff && Skipped(op.filter) <= 0x7fff_ffff_ffff_ffff
    ensures RightSize(op.filter, page)
  {
    var tasks := AnsweredFrom(ops, op, page);
    PageHolds(tasks, op.filter, page);
  }

  lemma {:induction false} OnSomePage(tasks: seq<Task>, f: Filter, n: nat, t: Task) returns (p: nat)
    requires t in Pages(tasks, f, n)
    ensures 1 <= p <= n && t in PageTasks(tasks, f.(page := p))
  {
    if t in PageTasks(tasks, f.(page := n)) { return n; }
    p := OnSomePage(tasks, f, n - 1, t);
  }

  const NO_FAULTS := Faults(false, false, false, false, false, false)

  /** Every task asked for is on some page: a member who asks for that page is answered with it. */
  lemma WantedIsListed(ops: seq<Op>, caller: Uuid, f: Filter, i: int) returns (p: nat)
    requires (forall k :: 0 <= k < |ops| ==> Clean(ops[k])) && f.status != Some("all")
    requires var w := Run(INITIAL, ops);
      && f.team.Some? && (f.team.value, caller) in w.members
      && i in Wanted(w.tasks, f) && |w.tasks| <= 0x7fff_ffff_ffff_ffff - 100
    ensures p >= 1
    ensures var w := Run(INITIAL, ops);
      var r := Step(w, List(caller, f.(page := p), NO_FAULTS)).1;
      r.ListResponse? && r.list.Ok? && w.tasks[i] in r.list.value.tasks
  {
    var w := Run(INITIAL, ops);
    var g := Normalise(f);
    NormaliseIsRetraction(f);
    RunKeepsCoherence(INITIAL, ops);
    WantedNormalised(w.tasks, f);
    WantedMembers(w.tasks, g, w.tasks[i]);
    NewestFirstSorts(Select(w.tasks, g));
    SameElements(NewestFirst(Select(w.tasks, g)), Select(w.tasks, g), w.tasks[i]);
    PagesPartition(w.tasks, g);
    p := OnSomePage(w.tasks, g, LastPage(w.tasks, g), w.tasks[i]);
    NormaliseIsRetraction(f.(page := p));
    assert Normalise(f.(page := p)) == g.(page := p);
    ListedWithoutFaults(w, caller, f.(page := p), g.(page := p));
  }

  lemma ListedWithoutFaults(w: World, caller: Uuid, f: Filter, g: Filter)
    requires f.team.Some? && (f.team.value, caller) in w.members && g == Normalise(f) && PageTasks(w.tasks, g) != []
    requires CacheKey(g) in w.cache ==> ListTasks(w.tasks, g) == Ok(w.cache[CacheKey(g)])
    ensures Step(w, List(caller, f, NO_FAULTS)).1 == ListResponse(ListTasks(w.tasks, g))
    ensures ListTasks(w.tasks, g).Ok?
  {
    if CacheKey(g) in w.cache { HitAnswers(w, caller, f, NO_FAULTS); }
  }
}
