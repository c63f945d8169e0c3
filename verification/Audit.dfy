/** The field diff of an update, and what the recorded history says about the task. */
module Audit {
  import opened Text
  import opened Domain
  import opened Sorting

  // ---- how a column is written in the history ----

  function AssigneeText(a: Option<Uuid>): string {
    if a.None? then "" else UuidText(a.value)
  }

  function DueText(d: Option<Time>): string {
    if d.None? then "" else DateText(d.value)
  }

  /** The recorded text of one audited column. */
  function Recorded(t: Task, f: Field): Option<string> {
    match f
    case Title => Some(t.title)
    case Description => t.description
    case Status => Some(t.status)
    case Priority => Some(t.priority)
    case AssigneeId => Some(AssigneeText(t.assignee))
    case DueDate => Some(DueText(t.due))
  }

  predicate SameDueDay(a: Option<Time>, b: Option<Time>) {
    (a.None? && b.None?) || (a.Some? && b.Some? && SameDay(a.value, b.value))
  }

  lemma AssigneeTextInjective(a: Option<Uuid>, b: Option<Uuid>)
    ensures AssigneeText(a) == AssigneeText(b) <==> a == b
  {
    if a.Some? { UuidTextAlphabet(a.value); }
    if b.Some? { UuidTextAlphabet(b.value); }
    if a.Some? && b.Some? && AssigneeText(a) == AssigneeText(b) { UuidTextInjective(a.value, b.value); }
  }

  lemma DueTextIdentifiesDay(a: Option<Time>, b: Option<Time>)
    ensures DueText(a) == DueText(b) <==> SameDueDay(a, b)
  {
    if a.Some? && b.Some? { DateTextIdentifiesDay(a.value, b.value); }
  }

  /** The recorded texts determine the audited columns, except for the time of day of a due date. */
  lemma RecordedIsFaithful(a: Task, b: Task)
    ensures (forall f :: Recorded(a, f) == Recorded(b, f)) <==>
      (a.title == b.title && a.description == b.description && a.status == b.status
      && a.priority == b.priority && a.assignee == b.assignee && SameDueDay(a.due, b.due))
  {
    AssigneeTextInjective(a.assignee, b.assignee);
    DueTextIdentifiesDay(a.due, b.due);
    if forall f :: Recorded(a, f) == Recorded(b, f) {
      assert Recorded(a, Title) == Recorded(b, Title);
      assert Recorded(a, Description) == Recorded(b, Description);
      assert Recorded(a, Status) == Recorded(b, Status);
      assert Recorded(a, Priority) == Recorded(b, Priority);
      assert Recorded(a, AssigneeId) == Recorded(b, AssigneeId);
      assert Recorded(a, DueDate) == Recorded(b, DueDate);
    }
  }

  // ---- the diff ----

  /** The task with every supplied field taken from the input. */
  function Applied(t: Task, u: UpdateInput): Task {
    t.(title := if u.title.Some? then u.title.value else t.title,
       description := if u.description.Some? then u.description else t.description,
       status := if u.status.Some? then u.status.value else t.status,
       priority := if u.priority.Some? then u.priority.value else t.priority,
       assignee := if u.assignee.Some? then u.assignee else t.assignee,
       due := if u.due.Some? then u.due else t.due)
  }

  /** The column itself changes value (for a due date: the instant, not only the day). */
  predicate Changes(t: Task, u: UpdateInput, f: Field) {
    match f
    case Title => u.title.Some? && u.title.value != t.title
    case Description => u.description.Some? && u.description != t.description
    case Status => u.status.Some? && u.status.value != t.status
    case Priority => u.priority.Some? && u.priority.value != t.priority
    case AssigneeId => u.assignee.Some? && u.assignee != t.assignee
    case DueDate => u.due.Some? && u.due != t.due
  }

  function EntryFor(t: Task, u: UpdateInput, task: Uuid, caller: Uuid, f: Field): seq<HistoryRow> {
    if Changes(t, u, f) then [HistoryRow(task, caller, f, Recorded(t, f), Recorded(Applied(t, u), f), 0)] else []
  }

  function TextEntries(t: Task, u: UpdateInput, task: Uuid, caller: Uuid): seq<HistoryRow> {
    EntryFor(t, u, task, caller, Title) + EntryFor(t, u, task, caller, Description)
    + EntryFor(t, u, task, caller, Status) + EntryFor(t, u, task, caller, Priority)
  }

  function Entries(t: Task, u: UpdateInput, task: Uuid, caller: Uuid): seq<HistoryRow> {
    TextEntries(t, u, task, caller) + EntryFor(t, u, task, caller, AssigneeId) + EntryFor(t, u, task, caller, DueDate)
  }

  /** The task the service holds while it edits it. */
  class TaskCell {
    var task: Task

    constructor (task: Task)
      ensures this.task == task
    {
      this.task := task;
    }
  }

  method BuildTextEntries(cell: TaskCell, u: UpdateInput, task: Uuid, caller: Uuid) returns (entries: seq<HistoryRow>)
    modifies cell
    ensures entries == TextEntries(old(cell.task), u, task, caller)
    ensures cell.task == Applied(old(cell.task), u.(assignee := None, due := None))
  {
    entries := [];
    ghost var t := cell.task;
    if u.title.Some? && u.title.value != cell.task.title {
      entries := entries + [HistoryRow(task, caller, Title, Some(cell.task.title), u.title, 0)];
      cell.task := cell.task.(title := u.title.value);
    }
    if u.description.Some? && cell.task.description != u.description {
      entries := entries + [HistoryRow(task, caller, Description, cell.task.description, u.description, 0)];
      cell.task := cell.task.(description := u.description);
    }
    assert entries == EntryFor(t, u, task, caller, Title) + EntryFor(t, u, task, caller, Description);
    if u.status.Some? && u.status.value != cell.task.status {
      entries := entries + [HistoryRow(task, caller, Status, Some(cell.task.status), u.status, 0)];
      cell.task := cell.task.(status := u.status.value);
    }
    if u.priority.Some? && u.priority.value != cell.task.priority {
      entries := entries + [HistoryRow(task, caller, Priority, Some(cell.task.priority), u.priority, 0)];
      cell.task := cell.task.(priority := u.priority.value);
    }
  }

  method BuildHistoryEntries(cell: TaskCell, u: UpdateInput, task: Uuid, caller: Uuid) returns (entries: seq<HistoryRow>)
    modifies cell
    ensures entries == Entries(old(cell.task), u, task, caller)
    ensures cell.task == Applied(old(cell.task), u)
  {
    ghost var t := cell.task;
    entries := BuildTextEntries(cell, u, task, caller);
    var assignment := BuildAssigneeEntry(cell, u, task, caller);
    var due := BuildDueEntry(cell, u, task, caller);
    entries := entries + assignment + due;
  }

  method BuildAssigneeEntry(cell: TaskCell, u: UpdateInput, task: Uuid, caller: Uuid) returns (entries: seq<HistoryRow>)
    modifies cell
    ensures forall t :: old(cell.task) == Applied(t, u.(assignee := None, due := None)) ==>
              entries == EntryFor(t, u, task, caller, AssigneeId) && cell.task == Applied(t, u.(due := None))
  {
    entries := [];
    if u.assignee.Some? && cell.task.assignee != u.assignee {
      var was := if cell.task.assignee.Some? then UuidText(cell.task.assignee.value) else "";
      entries := [HistoryRow(task, caller, AssigneeId, Some(was), Some(UuidText(u.assignee.value)), 0)];
      cell.task := cell.task.(assignee := u.assignee);
    }
  }

  method BuildDueEntry(cell: TaskCell, u: UpdateInput, task: Uuid, caller: Uuid) returns (entries: seq<HistoryRow>)
    modifies cell
    ensures forall t :: old(cell.task) == Applied(t, u.(due := None)) ==>
              entries == EntryFor(t, u, task, caller, DueDate) && cell.task == Applied(t, u)
  {
    entries := [];
    if u.due.Some? && cell.task.due != u.due {
      entries := [HistoryRow(task, caller, DueDate, Some(DueText(cell.task.due)), Some(DueText(u.due)), 0)];
      cell.task := cell.task.(due := u.due);
    }
  }

  /** Stamping every entry with the moment of the update. */
  function Stamped(rows: seq<HistoryRow>, now: nat): (r: seq<HistoryRow>)
    ensures |r| == |rows|
    ensures forall i :: 0 <= i < |r| ==> r[i] == rows[i].(changedAt := now)
  {
    if rows == [] then [] else [rows[0].(changedAt := now)] + Stamped(rows[1..], now)
  }

  // ---- the rows of one column ----

  function Of(rows: seq<HistoryRow>, f: Field): seq<HistoryRow> {
    if rows == [] then []
    else (if rows[0].field == f then [rows[0]] else []) + Of(rows[1..], f)
  }

  lemma {:induction false} OfAppend(a: seq<HistoryRow>, b: seq<HistoryRow>, f: Field)
    ensures Of(a + b, f) == Of(a, f) + Of(b, f)
  {
    if a == [] {
      assert a + b == b;
    } else {
      assert (a + b)[1..] == a[1..] + b;
      OfAppend(a[1..], b, f);
    }
  }

  lemma {:induction false} OfMembers(rows: seq<HistoryRow>, f: Field)
    ensures forall r :: r in Of(rows, f) <==> r in rows && r.field == f
  {
    if rows != [] { OfMembers(rows[1..], f); }
  }

  lemma {:induction false} OfStamped(rows: seq<HistoryRow>, now: nat, f: Field)
    ensures Of(Stamped(rows, now), f) == Stamped(Of(rows, f), now)
  {
    if rows != [] { OfStamped(rows[1..], now, f); }
  }

  lemma OneEntryOf(t: Task, u: UpdateInput, task: Uuid, caller: Uuid, g: Field, f: Field)
    ensures Of(EntryFor(t, u, task, caller, g), f) == if g == f then EntryFor(t, u, task, caller, f) else []
  {
  }

  lemma AppendEntry(s: seq<HistoryRow>, t: Task, u: UpdateInput, task: Uuid, caller: Uuid, g: Field, f: Field)
    ensures Of(s + EntryFor(t, u, task, caller, g), f) ==
      if g == f then Of(s, f) + EntryFor(t, u, task, caller, f) else Of(s, f)
  {
    OfAppend(s, EntryFor(t, u, task, caller, g), f);
    OneEntryOf(t, u, task, caller, g, f);
  }

  lemma TextEntriesOfField(t: Task, u: UpdateInput, task: Uuid, caller: Uuid, f: Field)
    ensures Of(TextEntries(t, u, task, caller), f) ==
      if f == AssigneeId || f == DueDate then [] else EntryFor(t, u, task, caller, f)
  {
    var e1 := EntryFor(t, u, task, caller, Title);
    var e2 := e1 + EntryFor(t, u, task, caller, Description);
    OneEntryOf(t, u, task, caller, Title, f);
    AppendEntry(e1, t, u, task, caller, Description, f);
    AppendEntry(e2, t, u, task, caller, Status, f);
    AppendEntry(e2 + EntryFor(t, u, task, caller, Status), t, u, task, caller, Priority, f);
  }

  /** The diff has, for each column, one entry exactly when the input changes that column, and no other. */
  lemma EntriesOfField(t: Task, u: UpdateInput, task: Uuid, caller: Uuid, f: Field)
    ensures Of(Entries(t, u, task, caller), f) == EntryFor(t, u, task, caller, f)
  {
    var e := TextEntries(t, u, task, caller);
    TextEntriesOfField(t, u, task, caller, f);
    AppendEntry(e, t, u, task, caller, AssigneeId, f);
    AppendEntry(e + EntryFor(t, u, task, caller, AssigneeId), t, u, task, caller, DueDate, f);
  }

  /** An entry that records no visible change is a due date moved within one day, nothing else. */
  lemma SilentEntryIff(t: Task, u: UpdateInput, f: Field)
    requires Changes(t, u, f)
    ensures Recorded(t, f) == Recorded(Applied(t, u), f) <==> f == DueDate && SameDueDay(t.due, u.due)
  {
    AssigneeTextInjective(t.assignee, Applied(t, u).assignee);
    DueTextIdentifiesDay(t.due, Applied(t, u).due);
  }

  lemma UnchangedColumn(t: Task, u: UpdateInput, f: Field)
    requires !Changes(t, u, f)
    ensures Recorded(Applied(t, u), f) == Recorded(t, f)
  {
  }

  /** A due date as the request and the DATE column carry it: midnight UTC. */
  predicate WholeDay(d: Option<Time>) {
    d.Some? ==> d.value.nanos == 0
  }

  /** With whole-day due dates every entry records a visible change. */
  lemma WholeDayEntriesAreVisible(t: Task, u: UpdateInput, f: Field)
    requires WholeDay(t.due) && WholeDay(u.due)
    ensures Changes(t, u, f) <==> Recorded(Applied(t, u), f) != Recorded(t, f)
  {
    if Changes(t, u, f) { SilentEntryIff(t, u, f); } else { UnchangedColumn(t, u, f); }
  }

  /** Sending the same update twice changes nothing more and records nothing more. */
  lemma UpdateIsIdempotent(t: Task, u: UpdateInput, task: Uuid, caller: Uuid)
    ensures Applied(Applied(t, u), u) == Applied(t, u)
    ensures Entries(Applied(t, u), u, task, caller) == []
    ensures Entries(t, u, task, caller) == [] <==> Applied(t, u) == t
  {
    if Entries(t, u, task, caller) == [] {
      EntriesOfField(t, u, task, caller, Title);
      EntriesOfField(t, u, task, caller, Description);
      EntriesOfField(t, u, task, caller, Status);
      EntriesOfField(t, u, task, caller, Priority);
      EntriesOfField(t, u, task, caller, AssigneeId);
      EntriesOfField(t, u, task, caller, DueDate);
    }
  }

  // ---- replaying and undoing ----

  /** The value of column f after applying the rows in order. */
  function Replay(v: Option<string>, rows: seq<HistoryRow>, f: Field): Option<string>
    decreases |rows|
  {
    if rows == [] then v
    else Replay(if rows[0].field == f then rows[0].newValue else v, rows[1..], f)
  }

  /** The value of column f after taking the rows back, last one first. */
  function Undo(v: Option<string>, rows: seq<HistoryRow>, f: Field): Option<string>
    decreases |rows|
  {
    if rows == [] then v
    else
      var last := rows[|rows| - 1];
      Undo(if last.field == f then last.oldValue else v, rows[..|rows| - 1], f)
  }

  function When(r: HistoryRow): int {
    r.changedAt
  }

  /** The rows of one column lead from v to w, each starting where the previous one ended, at increasing times. */
  ghost predicate Chain(v: Option<string>, rows: seq<HistoryRow>, w: Option<string>) {
    && (rows == [] ==> v == w)
    && (rows != [] ==> rows[0].oldValue == v && rows[|rows| - 1].newValue == w)
    && (forall i :: 0 <= i < |rows| - 1 ==> rows[i].newValue == rows[i + 1].oldValue)
    && StrictlyAscending(rows, When)
  }

  /** A listing of the history: the same rows in any order that "changed_at ASC" allows. */
  ghost predicate IsListing(rows: seq<HistoryRow>, listing: seq<HistoryRow>) {
    multiset(listing) == multiset(rows) && Ascending(listing, When)
  }

  lemma {:induction false} ReplayIsLast(v: Option<string>, rows: seq<HistoryRow>, f: Field)
    ensures var s := Of(rows, f);
      Replay(v, rows, f) == if s == [] then v else s[|s| - 1].newValue
    decreases |rows|
  {
    if rows != [] {
      ReplayIsLast(if rows[0].field == f then rows[0].newValue else v, rows[1..], f);
    }
  }

  lemma {:induction false} UndoIsFirst(v: Option<string>, rows: seq<HistoryRow>, f: Field)
    ensures var s := Of(rows, f);
      Undo(v, rows, f) == if s == [] then v else s[0].oldValue
    decreases |rows|
  {
    if rows != [] {
      var n := |rows| - 1;
      UndoIsFirst(if rows[n].field == f then rows[n].oldValue else v, rows[..n], f);
      OfAppend(rows[..n], [rows[n]], f);
      assert rows == rows[..n] + [rows[n]];
    }
  }

  lemma {:induction false} OfCounts(rows: seq<HistoryRow>, f: Field, r: HistoryRow)
    ensures multiset(Of(rows, f))[r] == if r.field == f then multiset(rows)[r] else 0
  {
    if rows != [] {
      OfCounts(rows[1..], f, r);
      assert rows == [rows[0]] + rows[1..];
    }
  }

  lemma {:induction false} OfAscending(rows: seq<HistoryRow>, f: Field)
    requires Ascending(rows, When)
    ensures Ascending(Of(rows, f), When)
  {
    if rows != [] {
      OfAscending(rows[1..], f);
      OfMembers(rows[1..], f);
      assert forall r :: r in rows[1..] ==> When(rows[0]) <= When(r);
    }
  }

  /** Rows tied on changed_at touch different columns, so every listing agrees column by column. */
  lemma ListingsAgree(rows: seq<HistoryRow>, listing: seq<HistoryRow>, f: Field)
    requires IsListing(rows, listing) && StrictlyAscending(Of(rows, f), When)
    ensures Of(listing, f) == Of(rows, f)
  {
    forall r: HistoryRow
      ensures multiset(Of(listing, f))[r] == multiset(Of(rows, f))[r]
    {
      OfCounts(rows, f, r);
      OfCounts(listing, f, r);
    }
    assert multiset(Of(listing, f)) == multiset(Of(rows, f));
    OfAscending(listing, f);
    DistinctSortsStrictly(Of(rows, f), Of(listing, f), When);
    SortedIsUnique(Of(listing, f), Of(rows, f), When);
  }

  /** Any listing of a chained history replays to the current value and undoes to the original one. */
  lemma ReplayAndUndo(v: Option<string>, w: Option<string>, rows: seq<HistoryRow>, listing: seq<HistoryRow>, f: Field)
    requires Chain(v, Of(rows, f), w) && IsListing(rows, listing)
    ensures Replay(v, listing, f) == w && Undo(w, listing, f) == v
  {
    ListingsAgree(rows, listing, f);
    ReplayIsLast(v, listing, f);
    UndoIsFirst(w, listing, f);
  }

  lemma ChainExtends(v: Option<string>, s: seq<HistoryRow>, w: Option<string>, r: HistoryRow)
    requires Chain(v, s, w) && r.oldValue == w
    requires forall x :: x in s ==> x.changedAt < r.changedAt
    ensures Chain(v, s + [r], r.newValue)
  {
    assert forall i :: 0 <= i < |s| ==> s[i] in s;
  }

  /** One more update keeps the chain of every column. */
  lemma UpdateExtendsChain(v: Option<string>, rows: seq<HistoryRow>, t: Task, u: UpdateInput, caller: Uuid, now: nat, f: Field)
    requires Chain(v, Of(rows, f), Recorded(t, f))
    requires forall r :: r in rows ==> r.changedAt < now
    ensures Chain(v, Of(rows + Stamped(Entries(t, u, t.id, caller), now), f), Recorded(Applied(t, u), f))
  {
    var e := Entries(t, u, t.id, caller);
    OfAppend(rows, Stamped(e, now), f);
    OfStamped(e, now, f);
    EntriesOfField(t, u, t.id, caller, f);
    OfMembers(rows, f);
    if Changes(t, u, f) {
      var r := HistoryRow(t.id, caller, f, Recorded(t, f), Recorded(Applied(t, u), f), now);
      assert Stamped(EntryFor(t, u, t.id, caller, f), now) == [r];
      ChainExtends(v, Of(rows, f), Recorded(t, f), r);
    } else {
      UnchangedColumn(t, u, f);
      assert Of(rows, f) + [] == Of(rows, f);
    }
  }

  // ---- ties on changed_at ----

  /** No two latest rows of the column disagree. */
  ghost predicate LatestAgree(rows: seq<HistoryRow>, f: Field) {
    forall r, s :: r in Of(rows, f) && s in Of(rows, f) && IsLatest(rows, f, r) && IsLatest(rows, f, s)
      ==> r.newValue == s.newValue
  }

  ghost predicate IsLatest(rows: seq<HistoryRow>, f: Field, r: HistoryRow) {
    forall s :: s in Of(rows, f) ==> s.changedAt <= r.changedAt
  }

  lemma ListingMembers(rows: seq<HistoryRow>, listing: seq<HistoryRow>)
    requires IsListing(rows, listing)
    ensures forall r: HistoryRow :: r in rows <==> r in listing
  {
    forall r: HistoryRow
      ensures r in rows <==> r in listing
    {
      SameElements(rows, listing, r);
    }
  }

  lemma LastIsLatest(s: seq<HistoryRow>, r: HistoryRow)
    requires Ascending(s, When) && r in s
    ensures r.changedAt <= s[|s| - 1].changedAt
  {
    var i :| 0 <= i < |s| && s[i] == r;
    assert When(s[i]) <= When(s[|s| - 1]);
  }

  lemma ListingColumn(rows: seq<HistoryRow>, listing: seq<HistoryRow>, f: Field)
    requires IsListing(rows, listing)
    ensures forall r: HistoryRow :: r in Of(rows, f) <==> r in Of(listing, f)
  {
    OfMembers(rows, f);
    OfMembers(listing, f);
    ListingMembers(rows, listing);
  }

  lemma ListingEndsLatest(rows: seq<HistoryRow>, listing: seq<HistoryRow>, f: Field)
    requires IsListing(rows, listing) && Of(rows, f) != []
    ensures var s := Of(listing, f);
      s != [] && s[|s| - 1] in Of(rows, f) && IsLatest(rows, f, s[|s| - 1])
  {
    var s := Of(listing, f);
    ListingColumn(rows, listing, f);
    OfAscending(listing, f);
    var first := Of(rows, f)[0];
    assert first in s;
    forall r | r in Of(rows, f)
      ensures r.changedAt <= s[|s| - 1].changedAt
    {
      LastIsLatest(s, r);
    }
  }

  /** If the latest rows of a column agree, every listing replays that column to the same value. */
  lemma ListingsReplayAlike(rows: seq<HistoryRow>, f: Field, v: Option<string>, a: seq<HistoryRow>, b: seq<HistoryRow>)
    requires LatestAgree(rows, f) && IsListing(rows, a) && IsListing(rows, b)
    ensures Replay(v, a, f) == Replay(v, b, f)
  {
    ReplayIsLast(v, a, f);
    ReplayIsLast(v, b, f);
    if Of(rows, f) == [] {
      OfEmptyListing(rows, a, f);
      OfEmptyListing(rows, b, f);
    } else {
      ListingEndsLatest(rows, a, f);
      ListingEndsLatest(rows, b, f);
    }
  }

  lemma OfEmptyListing(rows: seq<HistoryRow>, listing: seq<HistoryRow>, f: Field)
    requires IsListing(rows, listing) && Of(rows, f) == []
    ensures Of(listing, f) == []
  {
    ListingsAgree(rows, listing, f);
  }

  lemma SpliceAscending(s: seq<HistoryRow>, k: nat, r: HistoryRow)
    requires k <= |s| && Ascending(s, When)
    requires k > 0 ==> s[k - 1].changedAt <= r.changedAt
    requires k < |s| ==> r.changedAt <= s[k].changedAt
    ensures Ascending(s[..k] + [r] + s[k..], When)
  {
    var out := s[..k] + [r] + s[k..];
    forall i, j | 0 <= i < j < |out|
      ensures When(out[i]) <= When(out[j])
    {
      assert i < k ==> out[i] == s[i] && When(s[i]) <= When(s[k - 1]);
      assert j > k ==> out[j] == s[j - 1] && When(s[k]) <= When(s[j - 1]);
      assert i > k ==> out[i] == s[i - 1];
      assert j < k ==> out[j] == s[j];
    }
  }

  lemma SpliceCounts(s: seq<HistoryRow>, k: nat, r: HistoryRow)
    requires k <= |s|
    ensures multiset(s[..k] + [r] + s[k..]) == multiset(s) + multiset{r}
  {
    assert s == s[..k] + s[k..];
  }

  /** Where r goes behind all rows of its own time. */
  function Behind(s: seq<HistoryRow>, r: HistoryRow): (k: nat)
    ensures k <= |s|
    ensures k > 0 ==> s[k - 1].changedAt <= r.changedAt
  {
    if s != [] && r.changedAt < s[|s| - 1].changedAt then Behind(s[..|s| - 1], r) else |s|
  }

  lemma {:induction false} BehindIsLater(s: seq<HistoryRow>, r: HistoryRow)
    ensures forall x :: x in s[Behind(s, r)..] ==> r.changedAt < x.changedAt
    decreases |s|
  {
    if s != [] && r.changedAt < s[|s| - 1].changedAt {
      var n := |s| - 1;
      BehindIsLater(s[..n], r);
      assert s[Behind(s, r)..] == s[..n][Behind(s, r)..] + [s[n]];
    }
  }

  lemma InsertBehind(s: seq<HistoryRow>, r: HistoryRow)
    requires Ascending(s, When)
    ensures var k := Behind(s, r);
      Ascending(s[..k] + [r] + s[k..], When) && multiset(s[..k] + [r] + s[k..]) == multiset(s) + multiset{r}
  {
    var k := Behind(s, r);
    BehindIsLater(s, r);
    assert k < |s| ==> s[k] in s[k..];
    SpliceAscending(s, k, r);
    SpliceCounts(s, k, r);
  }

  lemma {:induction false} SomeListing(rows: seq<HistoryRow>) returns (listing: seq<HistoryRow>)
    ensures IsListing(rows, listing)
    decreases |rows|
  {
    if rows == [] {
      listing := [];
    } else {
      var s := SomeListing(rows[1..]);
      var k := Behind(s, rows[0]);
      InsertBehind(s, rows[0]);
      listing := s[..k] + [rows[0]] + s[k..];
      assert rows == [rows[0]] + rows[1..];
    }
  }

  /** Every latest row of a column comes last in some listing. */
  lemma ListingEndingWith(rows: seq<HistoryRow>, f: Field, r: HistoryRow) returns (listing: seq<HistoryRow>)
    requires r in Of(rows, f) && IsLatest(rows, f, r)
    ensures IsListing(rows, listing)
    ensures forall v :: Replay(v, listing, f) == r.newValue
  {
    OfMembers(rows, f);
    var i :| 0 <= i < |rows| && rows[i] == r;
    var rest := rows[..i] + rows[i + 1..];
    assert rows == rows[..i] + [r] + rows[i + 1..];
    assert multiset(rows) == multiset(rest) + multiset{r};
    var s := SomeListing(rest);
    var k := Behind(s, r);
    InsertBehind(s, r);
    BehindIsLater(s, r);
    listing := s[..k] + [r] + s[k..];
    OfAppend(s[..k] + [r], s[k..], f);
    OfAppend(s[..k], [r], f);
    NoneLater(rows, s[k..], f, r, rest, s, k);
    forall v: Option<string>
      ensures Replay(v, listing, f) == r.newValue
    {
      ReplayIsLast(v, listing, f);
    }
  }

  lemma {:induction false} NoRowsOf(rows: seq<HistoryRow>, f: Field)
    requires forall r :: r in rows ==> r.field != f
    ensures Of(rows, f) == []
  {
    if rows != [] { NoRowsOf(rows[1..], f); }
  }

  lemma NoneLater(rows: seq<HistoryRow>, tail: seq<HistoryRow>, f: Field, r: HistoryRow, rest: seq<HistoryRow>, s: seq<HistoryRow>, k: nat)
    requires k <= |s| && tail == s[k..] && IsListing(rest, s) && IsLatest(rows, f, r)
    requires forall x :: x in rest ==> x in rows
    requires forall x :: x in tail ==> r.changedAt < x.changedAt
    ensures Of(tail, f) == []
  {
    OfMembers(rows, f);
    ListingMembers(rest, s);
    assert forall x :: x in tail && x.field == f ==> x in Of(rows, f);
    NoRowsOf(tail, f);
  }

  /** The order of a listing matters for a column exactly when its latest rows disagree. */
  lemma ListingsAgreeIff(rows: seq<HistoryRow>, f: Field, v: Option<string>)
    ensures LatestAgree(rows, f) <==>
      (forall a, b :: IsListing(rows, a) && IsListing(rows, b) ==> Replay(v, a, f) == Replay(v, b, f))
  {
    if LatestAgree(rows, f) {
      forall a, b | IsListing(rows, a) && IsListing(rows, b)
        ensures Replay(v, a, f) == Replay(v, b, f)
      {
        ListingsReplayAlike(rows, f, v, a, b);
      }
    } else {
      var r, s :| r in Of(rows, f) && s in Of(rows, f) && IsLatest(rows, f, r) && IsLatest(rows, f, s)
        && r.newValue != s.newValue;
      var a := ListingEndingWith(rows, f, r);
      var b := ListingEndingWith(rows, f, s);
      assert Replay(v, a, f) != Replay(v, b, f);
    }
  }

  // ---- overlapping updates ----

  /**
   * Two updates of one task that both read t before either wrote; the first commits first, whichever time was
   * taken first. past is the history both build on.
   */
  datatype Overlap = Overlap(past: seq<HistoryRow>, t: Task, u1: UpdateInput, u2: UpdateInput, c1: Uuid, c2: Uuid, n1: nat, n2: nat)

  function RowsAfter(o: Overlap): seq<HistoryRow> {
    o.past + (Stamped(Entries(o.t, o.u1, o.t.id, o.c1), o.n1) + Stamped(Entries(o.t, o.u2, o.t.id, o.c2), o.n2))
  }

  /** The audited columns of the row the second update leaves: it puts back what it did not mean to touch. */
  function Kept(o: Overlap): Task {
    Applied(o.t, o.u2)
  }

  /** The first update leaves the column alone, or the second has a later row for it, or both leave the same text. */
  predicate SecondShows(o: Overlap, f: Field) {
    Changes(o.t, o.u1, f) && !(Changes(o.t, o.u2, f) && o.n1 < o.n2)
    ==> Recorded(Applied(o.t, o.u1), f) == Recorded(Kept(o), f)
  }

  ghost predicate BuildsOn(v: Option<string>, o: Overlap, f: Field) {
    Chain(v, Of(o.past, f), Recorded(o.t, f)) && forall x :: x in o.past ==> x.changedAt < o.n1 && x.changedAt < o.n2
  }

  function RowFor(t: Task, u: UpdateInput, c: Uuid, n: nat, f: Field): HistoryRow {
    HistoryRow(t.id, c, f, Recorded(t, f), Recorded(Applied(t, u), f), n)
  }

  function FirstRow(o: Overlap, f: Field): seq<HistoryRow> {
    if Changes(o.t, o.u1, f) then [RowFor(o.t, o.u1, o.c1, o.n1, f)] else []
  }

  function SecondRow(o: Overlap, f: Field): seq<HistoryRow> {
    if Changes(o.t, o.u2, f) then [RowFor(o.t, o.u2, o.c2, o.n2, f)] else []
  }

  lemma StampedEntry(t: Task, u: UpdateInput, c: Uuid, n: nat, f: Field)
    ensures Of(Stamped(Entries(t, u, t.id, c), n), f) == if Changes(t, u, f) then [RowFor(t, u, c, n, f)] else []
  {
    OfStamped(Entries(t, u, t.id, c), n, f);
    EntriesOfField(t, u, t.id, c, f);
  }

  /** The rows of the column: the old ones, and one from each update that changes it. */
  lemma RowsAfterOf(o: Overlap, f: Field)
    ensures Of(RowsAfter(o), f) == Of(o.past, f) + (FirstRow(o, f) + SecondRow(o, f))
    ensures forall r :: r in Of(RowsAfter(o), f) <==> r in Of(o.past, f) || r in FirstRow(o, f) || r in SecondRow(o, f)
  {
    var s1, s2 := Stamped(Entries(o.t, o.u1, o.t.id, o.c1), o.n1), Stamped(Entries(o.t, o.u2, o.t.id, o.c2), o.n2);
    OfAppend(o.past, s1 + s2, f);
    OfAppend(s1, s2, f);
    StampedEntry(o.t, o.u1, o.c1, o.n1, f);
    StampedEntry(o.t, o.u2, o.c2, o.n2, f);
  }

  lemma NothingChanged(o: Overlap, f: Field)
    requires Of(RowsAfter(o), f) == []
    ensures Of(o.past, f) == [] && Recorded(Kept(o), f) == Recorded(o.t, f)
  {
    RowsAfterOf(o, f);
    assert |Of(o.past, f)| + |FirstRow(o, f)| + |SecondRow(o, f)| == 0;
    UnchangedColumn(o.t, o.u2, f);
  }

  /** In a chain only its last row is latest, and only its first row is earliest. */
  lemma ChainEnds(v: Option<string>, s: seq<HistoryRow>, w: Option<string>, r: HistoryRow)
    requires Chain(v, s, w) && r in s
    ensures (forall x :: x in s ==> x.changedAt <= r.changedAt) ==> r.newValue == w
    ensures (forall x :: x in s ==> r.changedAt <= x.changedAt) ==> r.oldValue == v
  {
    var i :| 0 <= i < |s| && s[i] == r;
    assert i < |s| - 1 ==> When(s[i]) < When(s[|s| - 1]);
    assert 0 < i ==> When(s[0]) < When(s[i]);
  }

  lemma LatestRowShows(v: Option<string>, o: Overlap, f: Field, r: HistoryRow)
    requires BuildsOn(v, o, f) && SecondShows(o, f) && r in Of(RowsAfter(o), f) && IsLatest(RowsAfter(o), f, r)
    ensures r.newValue == Recorded(Kept(o), f)
  {
    RowsAfterOf(o, f);
    OfMembers(o.past, f);
    if !Changes(o.t, o.u2, f) { UnchangedColumn(o.t, o.u2, f); }
    if Changes(o.t, o.u1, f) { assert FirstRow(o, f)[0] in Of(RowsAfter(o), f); }
    if Changes(o.t, o.u2, f) { assert SecondRow(o, f)[0] in Of(RowsAfter(o), f); }
    if r in Of(o.past, f) { ChainEnds(v, Of(o.past, f), Recorded(o.t, f), r); }
  }

  lemma ListingShows(v: Option<string>, o: Overlap, f: Field, listing: seq<HistoryRow>)
    requires BuildsOn(v, o, f) && SecondShows(o, f) && IsListing(RowsAfter(o), listing)
    ensures Replay(v, listing, f) == Recorded(Kept(o), f)
  {
    ReplayIsLast(v, listing, f);
    if Of(RowsAfter(o), f) == [] {
      NothingChanged(o, f);
      OfEmptyListing(RowsAfter(o), listing, f);
    } else {
      ListingEndsLatest(RowsAfter(o), listing, f);
      var s := Of(listing, f);
      LatestRowShows(v, o, f, s[|s| - 1]);
    }
  }

  /** If the second update does not show, the first one's row comes last in some listing. */
  lemma ListingMisleads(v: Option<string>, o: Overlap, f: Field) returns (listing: seq<HistoryRow>)
    requires BuildsOn(v, o, f) && !SecondShows(o, f)
    ensures IsListing(RowsAfter(o), listing) && Replay(v, listing, f) != Recorded(Kept(o), f)
  {
    RowsAfterOf(o, f);
    OfMembers(o.past, f);
    var r := FirstRow(o, f)[0];
    assert r in Of(RowsAfter(o), f) && IsLatest(RowsAfter(o), f, r);
    listing := ListingEndingWith(RowsAfter(o), f, r);
  }

  lemma ListingStartsEarliest(rows: seq<HistoryRow>, listing: seq<HistoryRow>, f: Field)
    requires IsListing(rows, listing) && Of(rows, f) != []
    ensures var s := Of(listing, f);
      s != [] && s[0] in Of(rows, f) && forall r :: r in Of(rows, f) ==> s[0].changedAt <= r.changedAt
  {
    var s := Of(listing, f);
    ListingColumn(rows, listing, f);
    OfAscending(listing, f);
    assert Of(rows, f)[0] in s;
    forall r | r in Of(rows, f)
      ensures s[0].changedAt <= r.changedAt
    {
      var i :| 0 <= i < |s| && s[i] == r;
      assert When(s[0]) <= When(s[i]);
    }
  }

  lemma EarliestRowUndoes(v: Option<string>, o: Overlap, f: Field, r: HistoryRow)
    requires BuildsOn(v, o, f) && r in Of(RowsAfter(o), f)
    requires forall x :: x in Of(RowsAfter(o), f) ==> r.changedAt <= x.changedAt
    ensures r.oldValue == v
  {
    RowsAfterOf(o, f);
    OfMembers(o.past, f);
    if Of(o.past, f) != [] {
      var first := Of(o.past, f)[0];
      assert first in Of(o.past, f) && first in Of(RowsAfter(o), f) && first in o.past;
      assert r in Of(o.past, f);
      ChainEnds(v, Of(o.past, f), Recorded(o.t, f), r);
    }
  }

  /** Undoing gives the creation value back whatever the order, for both rows start from what both updates read. */
  lemma OverlapUndoes(v: Option<string>, o: Overlap, f: Field, listing: seq<HistoryRow>)
    requires BuildsOn(v, o, f) && IsListing(RowsAfter(o), listing)
    ensures Undo(Recorded(Kept(o), f), listing, f) == v
  {
    UndoIsFirst(Recorded(Kept(o), f), listing, f);
    if Of(RowsAfter(o), f) == [] {
      NothingChanged(o, f);
      OfEmptyListing(RowsAfter(o), listing, f);
    } else {
      ListingStartsEarliest(RowsAfter(o), listing, f);
      EarliestRowUndoes(v, o, f, Of(listing, f)[0]);
    }
  }
}
