/** The history of every task replays, over any run of requests that do not overlap. */
module AuditTrail {
  import opened Text
  import opened Domain
  import opened TaskQuery
  import opened Audit
  import opened World

  function RowsOf(history: seq<HistoryRow>, task: Uuid): seq<HistoryRow> {
    if history == [] then []
    else (if history[0].task == task then [history[0]] else []) + RowsOf(history[1..], task)
  }

  lemma {:induction false} RowsOfAppend(a: seq<HistoryRow>, b: seq<HistoryRow>, task: Uuid)
    ensures RowsOf(a + b, task) == RowsOf(a, task) + RowsOf(b, task)
  {
    if a == [] {
      assert a + b == b;
    } else {
      assert (a + b)[1..] == a[1..] + b;
      RowsOfAppend(a[1..], b, task);
    }
  }

  lemma {:induction false} RowsOfMembers(history: seq<HistoryRow>, task: Uuid)
    ensures forall r :: r in RowsOf(history, task) <==> r in history && r.task == task
  {
    if history != [] { RowsOfMembers(history[1..], task); }
  }

  lemma {:induction false} RowsOfUniform(rows: seq<HistoryRow>, owner: Uuid, task: Uuid)
    requires forall r :: r in rows ==> r.task == owner
    ensures RowsOf(rows, task) == if owner == task then rows else []
  {
    if rows != [] {
      assert rows[0] in rows;
      RowsOfUniform(rows[1..], owner, task);
    }
  }

  lemma EntriesBelong(t: Task, u: UpdateInput, id: Uuid, caller: Uuid, now: nat)
    ensures forall r :: r in Stamped(Entries(t, u, id, caller), now) ==> r.task == id
  {
    var e, s := Entries(t, u, id, caller), Stamped(Entries(t, u, id, caller), now);
    assert forall r :: r in e ==> r.task == id;
    forall r | r in s
      ensures r.task == id
    {
      var i :| 0 <= i < |s| && s[i] == r;
      assert e[i] in e;
    }
  }

  /** Column by column, the rows of the task lead from its creation values to its present ones. */
  ghost predicate Replayable(w: World, t: Task) {
    && t.id in w.born
    && (forall f :: Chain(Recorded(w.born[t.id], f), Of(RowsOf(w.history, t.id), f), Recorded(t, f)))
    && t.team == w.born[t.id].team && t.createdBy == w.born[t.id].createdBy && t.createdAt == w.born[t.id].createdAt
  }

  ghost predicate AllReplayable(w: World) {
    && (forall t :: t in w.tasks ==> Replayable(w, t))
    && (forall r :: r in w.history ==> HasId(w.tasks, r.task))
  }

  /** Updates of one task happen at increasing times. */
  predicate LaterThanHistory(w: World, op: Op) {
    op.UpdateTask? ==> forall r :: r in w.history && r.task == op.task ==> r.changedAt < op.now
  }

  lemma CreateKeepsHistory(w: World, op: Op)
    requires AllReplayable(w) && op.CreateTask?
    ensures AllReplayable(Step(w, op).0)
  {
    var w' := Step(w, op).0;
    if w' != w {
      var task := NewTask(op.caller, op.create, op.id, op.now);
      NoRows(w.history, op.id);
      forall r | r in w'.history
        ensures HasId(w'.tasks, r.task)
      {
        var i :| 0 <= i < |w.tasks| && w.tasks[i].id == r.task;
        assert w'.tasks[i].id == r.task;
      }
      forall t | t in w'.tasks
        ensures Replayable(w', t)
      {
        if t in w.tasks {
          assert Replayable(w, t);
          var i :| 0 <= i < |w.tasks| && w.tasks[i] == t;
          assert t.id != op.id;
        }
      }
    }
  }

  lemma {:induction false} NoRows(history: seq<HistoryRow>, task: Uuid)
    requires forall r :: r in history ==> r.task != task
    ensures RowsOf(history, task) == []
  {
    if history != [] { NoRows(history[1..], task); }
  }

  lemma UpdatedTaskReplays(w: World, w': World, t: Task, u: UpdateInput, caller: Uuid, now: nat)
    requires Replayable(w, t) && forall r :: r in w.history && r.task == t.id ==> r.changedAt < now
    requires w'.history == w.history + Stamped(Entries(t, u, t.id, caller), now) && w'.born == w.born
    ensures Replayable(w', Applied(t, u).(updatedAt := now))
  {
    var fresh' := Stamped(Entries(t, u, t.id, caller), now);
    EntriesBelong(t, u, t.id, caller, now);
    RowsOfAppend(w.history, fresh', t.id);
    RowsOfUniform(fresh', t.id, t.id);
    RowsOfMembers(w.history, t.id);
    forall f: Field
      ensures Chain(Recorded(w.born[t.id], f), Of(RowsOf(w'.history, t.id), f), Recorded(Applied(t, u).(updatedAt := now), f))
    {
      UpdateExtendsChain(Recorded(w.born[t.id], f), RowsOf(w.history, t.id), t, u, caller, now, f);
    }
  }

  lemma UpdateKeepsHistory(w: World, op: Op)
    requires AllReplayable(w) && UniqueIds(w.tasks) && op.UpdateTask? && LaterThanHistory(w, op)
    ensures AllReplayable(Step(w, op).0)
  {
    var w' := Step(w, op).0;
    if w' != w {
      var t := Find(w.tasks, op.task).value;
      var t' := Applied(t, op.update).(updatedAt := op.now);
      var fresh' := Stamped(Entries(t, op.update, op.task, op.caller), op.now);
      EntriesBelong(t, op.update, op.task, op.caller, op.now);
      OverwriteAt(w.tasks, t');
      FoundIsOnly(w.tasks, op.task, t);
      assert Replayable(w, t);
      UpdatedTaskReplays(w, w', t, op.update, op.caller, op.now);
      assert Overlay(t, t') == t';
      forall r | r in w'.history
        ensures HasId(w'.tasks, r.task)
      {
        assert HasId(w.tasks, r.task);
        var i :| 0 <= i < |w.tasks| && w.tasks[i].id == r.task;
        assert w'.tasks[i].id == r.task;
      }
      forall s | s in w'.tasks
        ensures Replayable(w', s)
      {
        var i :| 0 <= i < |w'.tasks| && w'.tasks[i] == s;
        assert w.tasks[i] in w.tasks;
        if w.tasks[i].id != op.task {
          assert Replayable(w, s);
          RowsOfAppend(w.history, fresh', s.id);
          RowsOfUniform(fresh', op.task, s.id);
          assert RowsOf(w.history, s.id) + [] == RowsOf(w.history, s.id);
        }
      }
    }
  }

  /** Every request keeps every history replayable. */
  lemma StepKeepsHistory(w: World, op: Op)
    requires AllReplayable(w) && UniqueIds(w.tasks) && LaterThanHistory(w, op)
    ensures AllReplayable(Step(w, op).0)
  {
    match op {
      case CreateTask(_, _, _, _, _, _) => CreateKeepsHistory(w, op);
      case UpdateTask(_, _, _, _, _, _) => UpdateKeepsHistory(w, op);
      case _ =>
        OthersKeepTasks(w, op);
        SameTasksReplay(w, Step(w, op).0);
    }
  }

  lemma SameTasksReplay(w: World, v: World)
    requires AllReplayable(w) && v.tasks == w.tasks && v.history == w.history && v.born == w.born
    ensures AllReplayable(v)
  {
    forall t | t in v.tasks
      ensures Replayable(v, t)
    {
      assert Replayable(w, t);
    }
  }

  ghost predicate TimesIncrease(w: World, ops: seq<Op>)
    decreases |ops|
  {
    ops == [] || (LaterThanHistory(w, ops[0]) && TimesIncrease(Step(w, ops[0]).0, ops[1..]))
  }

  lemma {:induction false} RunKeepsHistory(w: World, ops: seq<Op>)
    requires AllReplayable(w) && UniqueIds(w.tasks) && TimesIncrease(w, ops)
    ensures AllReplayable(Run(w, ops)) && UniqueIds(Run(w, ops).tasks)
    decreases |ops|
  {
    if ops != [] {
      StepKeepsHistory(w, ops[0]);
      UniqueIdsStep(w, ops[0]);
      RunKeepsHistory(Step(w, ops[0]).0, ops[1..]);
    }
  }

  /**
   * Audit replay: after any run, any listing of a task's history turns its creation values into the
   * stored ones, and undoing it gives the creation values back.
   */
  lemma HistoryReplays(ops: seq<Op>, t: Task, listing: seq<HistoryRow>, f: Field)
    requires TimesIncrease(INITIAL, ops) && t in Run(INITIAL, ops).tasks
    requires IsListing(RowsOf(Run(INITIAL, ops).history, t.id), listing)
    ensures t.id in Run(INITIAL, ops).born
    ensures var born := Run(INITIAL, ops).born[t.id];
      Replay(Recorded(born, f), listing, f) == Recorded(t, f) && Undo(Recorded(t, f), listing, f) == Recorded(born, f)
  {
    var w := Run(INITIAL, ops);
    RunKeepsHistory(INITIAL, ops);
    assert Replayable(w, t);
    ReplayAndUndo(Recorded(w.born[t.id], f), Recorded(t, f), RowsOf(w.history, t.id), listing, f);
  }

  // ---- updates that overlap ----

  /** Both updates read o.t in w, then the first commits, then the second. */
  function BothCommitted(w: World, o: Overlap, i1: Invalidation, i2: Invalidation): World {
    Committed(Committed(w, o.t, o.c1, o.u1, o.n1, i1), o.t, o.c2, o.u2, o.n2, i2)
  }

  /** The task is in the table with a replayable history, all older than both updates. */
  ghost predicate BothRead(w: World, o: Overlap) {
    && UniqueIds(w.tasks) && o.t in w.tasks && Replayable(w, o.t)
    && o.past == RowsOf(w.history, o.t.id) && forall r :: r in o.past ==> r.changedAt < o.n1 && r.changedAt < o.n2
  }

  lemma RowsOfTwo(history: seq<HistoryRow>, a: seq<HistoryRow>, b: seq<HistoryRow>, task: Uuid)
    requires (forall r :: r in a ==> r.task == task) && (forall r :: r in b ==> r.task == task)
    ensures RowsOf(history + a + b, task) == RowsOf(history, task) + (a + b)
  {
    RowsOfAppend(history, a + b, task);
    RowsOfUniform(a + b, task, task);
    assert history + a + b == history + (a + b);
  }

  lemma RowsOfBoth(w: World, o: Overlap, i1: Invalidation, i2: Invalidation)
    requires o.past == RowsOf(w.history, o.t.id)
    ensures RowsOf(BothCommitted(w, o, i1, i2).history, o.t.id) == RowsAfter(o)
  {
    EntriesBelong(o.t, o.u1, o.t.id, o.c1, o.n1);
    EntriesBelong(o.t, o.u2, o.t.id, o.c2, o.n2);
    RowsOfTwo(w.history, Stamped(Entries(o.t, o.u1, o.t.id, o.c1), o.n1), Stamped(Entries(o.t, o.u2, o.t.id, o.c2), o.n2), o.t.id);
  }

  /** The row that both updates leave is the one the second update computed from what it had read. */
  lemma StoredByBoth(w: World, o: Overlap, i1: Invalidation, i2: Invalidation, s: Task)
    requires BothRead(w, o) && s in BothCommitted(w, o, i1, i2).tasks && s.id == o.t.id
    ensures s == Kept(o).(updatedAt := o.n2)
  {
    var t1, t2 := Applied(o.t, o.u1).(updatedAt := o.n1), Applied(o.t, o.u2).(updatedAt := o.n2);
    var mid := OverwrittenFrom(Overwrite(w.tasks, t1), t2, s);
    var row := OverwrittenFrom(w.tasks, t1, mid);
    assert row.id == o.t.id;
    SameRow(w.tasks, row, o.t);
  }

  lemma SameRow(tasks: seq<Task>, a: Task, b: Task)
    requires UniqueIds(tasks) && a in tasks && b in tasks && a.id == b.id
    ensures a == b
  {
    var i :| 0 <= i < |tasks| && tasks[i] == a;
    var j :| 0 <= j < |tasks| && tasks[j] == b;
    assert !(i < j) && !(j < i);
  }

  /** Every listing of the task's history replays the column from its creation value to the stored one. */
  ghost predicate Explains(v: World, task: Uuid, f: Field) {
    forall s, listing :: s in v.tasks && s.id == task && task in v.born && IsListing(RowsOf(v.history, task), listing)
      ==> Replay(Recorded(v.born[task], f), listing, f) == Recorded(s, f)
  }

  lemma BothStored(w: World, o: Overlap, i1: Invalidation, i2: Invalidation) returns (s: Task)
    requires BothRead(w, o)
    ensures s in BothCommitted(w, o, i1, i2).tasks && s.id == o.t.id
  {
    var t1, t2 := Applied(o.t, o.u1).(updatedAt := o.n1), Applied(o.t, o.u2).(updatedAt := o.n2);
    var i :| 0 <= i < |w.tasks| && w.tasks[i] == o.t;
    OverwriteAt(w.tasks, t1);
    OverwriteAt(Overwrite(w.tasks, t1), t2);
    s := BothCommitted(w, o, i1, i2).tasks[i];
  }

  lemma OverlapAuditColumn(w: World, o: Overlap, i1: Invalidation, i2: Invalidation, f: Field)
    requires BothRead(w, o)
    ensures Explains(BothCommitted(w, o, i1, i2), o.t.id, f) <==> SecondShows(o, f)
  {
    var v := BothCommitted(w, o, i1, i2);
    var born := Recorded(w.born[o.t.id], f);
    RowsOfBoth(w, o, i1, i2);
    assert v.born == w.born && BuildsOn(born, o, f);
    forall s | s in v.tasks && s.id == o.t.id
      ensures Recorded(s, f) == Recorded(Kept(o), f)
    {
      StoredByBoth(w, o, i1, i2, s);
    }
    if SecondShows(o, f) {
      forall listing | IsListing(RowsAfter(o), listing)
        ensures Replay(born, listing, f) == Recorded(Kept(o), f)
      {
        ListingShows(born, o, f, listing);
      }
    } else {
      var s := BothStored(w, o, i1, i2);
      var listing := ListingMisleads(born, o, f);
      assert Replay(born, listing, f) != Recorded(s, f);
    }
  }

  /**
   * Two updates that both read the task before either wrote: the history explains the stored row, in every
   * listing and column, exactly if each column the first one changed has a later row of the second one, or was
   * left by both with the same text. The times may be in either order or equal.
   */
  lemma OverlapAuditIff(w: World, o: Overlap, i1: Invalidation, i2: Invalidation)
    requires BothRead(w, o)
    ensures (forall f :: Explains(BothCommitted(w, o, i1, i2), o.t.id, f)) <==> (forall f :: SecondShows(o, f))
  {
    forall f: Field
      ensures Explains(BothCommitted(w, o, i1, i2), o.t.id, f) <==> SecondShows(o, f)
    {
      OverlapAuditColumn(w, o, i1, i2, f);
    }
  }

  /** Undoing restores the creation values also after such a pair, in every listing. */
  lemma OverlapStillUndoes(w: World, o: Overlap, i1: Invalidation, i2: Invalidation, s: Task, listing: seq<HistoryRow>, f: Field)
    requires BothRead(w, o) && s in BothCommitted(w, o, i1, i2).tasks && s.id == o.t.id
    requires IsListing(RowsOf(BothCommitted(w, o, i1, i2).history, o.t.id), listing)
    ensures Undo(Recorded(s, f), listing, f) == Recorded(w.born[o.t.id], f)
  {
    RowsOfBoth(w, o, i1, i2);
    StoredByBoth(w, o, i1, i2, s);
    OverlapUndoes(Recorded(w.born[o.t.id], f), o, f, listing);
  }
}
