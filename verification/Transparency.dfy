/** Requests that do not overlap cannot tell the cached service from one without a cache. */
module Transparency {
  import opened Text
  import opened Domain
  import opened CacheKeys
  import opened TaskQuery
  import opened Audit
  import opened World

  /** Every cached list is what the database would answer now. */
  ghost predicate Coherent(w: World) {
    forall f: Filter :: f.team.Some? && Normal(f) && f.status != Some(ALL) && CacheKey(f) in w.cache
      ==> ListTasks(w.tasks, f) == Ok(w.cache[CacheKey(f)])
  }

  /** No list request spells the status filter "all", and every invalidation succeeds. */
  predicate Clean(op: Op) {
    (op.List? ==> op.filter.status != Some(ALL))
    && (op.CreateTask? ==> op.inv.Cleared?) && (op.UpdateTask? ==> op.inv.Cleared?)
  }

  /** The same requests against a service that always asks the database. */
  function UncachedResponses(w: World, ops: seq<Op>): seq<Response>
    decreases |ops|
  {
    if ops == [] then []
    else [Step(Bare(w), ops[0]).1] + UncachedResponses(Step(Bare(w), ops[0]).0, ops[1..])
  }

  lemma ClearedKeys(w: World, team: Uuid, f: Filter)
    requires CacheKey(f) in Invalidated(w.cache, team, Cleared)
    ensures CacheKey(f) in w.cache && f.team != Some(team)
    ensures Invalidated(w.cache, team, Cleared)[CacheKey(f)] == w.cache[CacheKey(f)]
  {
    PatternSelectsTeam(team, f);
  }

  lemma CreateKeepsCoherence(w: World, op: Op)
    requires Coherent(w) && op.CreateTask? && op.inv.Cleared?
    ensures Coherent(Step(w, op).0)
  {
    var w' := Step(w, op).0;
    if w' != w {
      var task := NewTask(op.caller, op.create, op.id, op.now);
      forall f: Filter | f.team.Some? && Normal(f) && f.status != Some(ALL) && CacheKey(f) in w'.cache
        ensures ListTasks(w'.tasks, f) == Ok(w'.cache[CacheKey(f)])
      {
        ClearedKeys(w, op.create.team, f);
        InsertIsTeamLocal(w.tasks, task, f);
        SelectionDeterminesList(w'.tasks, w.tasks, f);
      }
    }
  }

  lemma UpdateKeepsCoherence(w: World, op: Op)
    requires Coherent(w) && UniqueIds(w.tasks) && op.UpdateTask? && op.inv.Cleared?
    ensures Coherent(Step(w, op).0)
  {
    var w' := Step(w, op).0;
    if w' != w {
      var t := Find(w.tasks, op.task).value;
      var t' := Applied(t, op.update).(updatedAt := op.now);
      FoundIsOnly(w.tasks, op.task, t);
      forall f: Filter | f.team.Some? && Normal(f) && f.status != Some(ALL) && CacheKey(f) in w'.cache
        ensures ListTasks(w'.tasks, f) == Ok(w'.cache[CacheKey(f)])
      {
        ClearedKeys(w, t.team, f);
        OverwriteIsTeamLocal(w.tasks, t', f);
        SelectionDeterminesList(w'.tasks, w.tasks, f);
      }
    }
  }

  lemma ListKeepsCoherence(w: World, op: Op)
    requires Coherent(w) && op.List? && Clean(op)
    ensures Coherent(Step(w, op).0)
  {
    var w' := Step(w, op).0;
    if w' != w {
      var f := Normalise(op.filter);
      forall g: Filter | g.team.Some? && Normal(g) && g.status != Some(ALL) && CacheKey(g) in w'.cache
        ensures ListTasks(w'.tasks, g) == Ok(w'.cache[CacheKey(g)])
      {
        KeysCollideIff(f, g);
      }
    }
  }

  lemma StepKeepsCoherence(w: World, op: Op)
    requires Coherent(w) && UniqueIds(w.tasks) && Clean(op)
    ensures Coherent(Step(w, op).0)
  {
    match op {
      case CreateTask(_, _, _, _, _, _) => CreateKeepsCoherence(w, op);
      case UpdateTask(_, _, _, _, _, _) => UpdateKeepsCoherence(w, op);
      case List(_, _, _) => ListKeepsCoherence(w, op);
      case Invite(_, _, _, _) =>
      case _ =>
    }
  }

  lemma ListIsTransparent(w: World, op: Op)
    requires Coherent(w) && Clean(op) && op.List? && !op.faults.read
    ensures Step(w, op).1 == Step(Bare(w), op).1
    ensures Bare(Step(w, op).0) == Bare(Step(Bare(w), op).0)
  {
    if op.filter.team.Some? {
      var f := Normalise(op.filter);
      assert f.team.Some? && Normal(f) && f.status != Some(ALL);
    }
  }

  /** The answer and everything but the cache are those of the uncached service. */
  lemma StepIsTransparent(w: World, op: Op)
    requires Coherent(w) && Clean(op) && (op.List? ==> !op.faults.read)
    ensures Step(w, op).1 == Step(Bare(w), op).1
    ensures Bare(Step(w, op).0) == Bare(Step(Bare(w), op).0)
  {
    match op {
      case List(_, _, _) => ListIsTransparent(w, op);
      case UpdateTask(_, _, _, _, _, _) => UpdateIsTransparent(w, op);
      case Invite(_, _, _, _) => InviteIsTransparent(w, op);
      case _ =>
    }
  }

  lemma UpdateIsTransparent(w: World, op: Op)
    requires op.UpdateTask?
    ensures Step(w, op).1 == Step(Bare(w), op).1
    ensures Bare(Step(w, op).0) == Bare(Step(Bare(w), op).0)
  {
  }

  lemma InviteIsTransparent(w: World, op: Op)
    requires op.Invite?
    ensures Step(w, op).1 == Step(Bare(w), op).1
    ensures Bare(Step(w, op).0) == Bare(Step(Bare(w), op).0)
  {
  }

  /**
   * Serial transparency: over any requests, with cache reads and writes failing and entries expiring at
   * will, a list is always exactly what the database would have answered.
   */
  lemma {:induction false} CacheIsTransparent(w: World, b: World, ops: seq<Op>)
    requires Coherent(w) && UniqueIds(w.tasks) && Bare(w) == Bare(b)
    requires forall i :: 0 <= i < |ops| ==> Clean(ops[i]) && (ops[i].List? ==> !ops[i].faults.read)
    ensures Responses(w, ops) == UncachedResponses(b, ops)
    decreases |ops|
  {
    if ops != [] {
      StepIsTransparent(w, ops[0]);
      StepKeepsCoherence(w, ops[0]);
      UniqueIdsStep(w, ops[0]);
      CacheIsTransparent(Step(w, ops[0]).0, Step(Bare(b), ops[0]).0, ops[1..]);
    }
  }

  lemma {:induction false} RunKeepsCoherence(w: World, ops: seq<Op>)
    requires Coherent(w) && UniqueIds(w.tasks)
    requires forall i :: 0 <= i < |ops| ==> Clean(ops[i])
    ensures Coherent(Run(w, ops)) && UniqueIds(Run(w, ops).tasks)
    decreases |ops|
  {
    if ops != [] {
      StepKeepsCoherence(w, ops[0]);
      UniqueIdsStep(w, ops[0]);
      RunKeepsCoherence(Step(w, ops[0]).0, ops[1..]);
    }
  }

  /** Even with database reads failing, a list that is answered at all is the true one. */
  lemma AnsweredListIsTrue(ops: seq<Op>, op: Op)
    requires (forall i :: 0 <= i < |ops| ==> Clean(ops[i])) && Clean(op) && op.List?
    ensures var w := Run(INITIAL, ops);
      var r := Step(w, op).1;
      r.list.Ok? ==> ListTasks(w.tasks, Normalise(op.filter)) == r.list
  {
    RunKeepsCoherence(INITIAL, ops);
    var f := Normalise(op.filter);
    assert f.team == op.filter.team && Normal(f) && f.status != Some(ALL);
  }

  // ---- where transparency ends ----

  predicate AsksAfresh(w: World, caller: Uuid, f: Filter, faults: Faults) {
    && f.team.Some? && (f.team.value, caller) in w.members
    && !faults.callerRole && !faults.read && !faults.cacheGet && !faults.cacheSetLost
  }

  lemma ListFills(w: World, caller: Uuid, f: Filter, faults: Faults)
    requires Coherent(w) && AsksAfresh(w, caller, f, faults) && f.status == None
    requires ListTasks(w.tasks, Normalise(f)).Ok?
    ensures var w' := Step(w, List(caller, f, faults)).0;
      var list := ListTasks(w.tasks, Normalise(f));
      && w'.tasks == w.tasks && w'.members == w.members
      && Step(w, List(caller, f, faults)).1 == ListResponse(list)
      && CacheKey(Normalise(f)) in w'.cache && Ok(w'.cache[CacheKey(Normalise(f))]) == list
  {
    assert Normal(Normalise(f)) && Normalise(f).status == None && Normalise(f).team == f.team;
  }

  /** Right after an unfiltered list, asking for the status "all" returns that same unfiltered list. */
  lemma AllStatusSeesUnfiltered(w: World, caller: Uuid, f: Filter, faults: Faults)
    requires Coherent(w) && AsksAfresh(w, caller, f, faults) && f.status == None
    requires ListTasks(w.tasks, Normalise(f)).Ok?
    ensures var g := f.(status := Some(ALL));
      Step(Step(w, List(caller, f, faults)).0, List(caller, g, faults)).1 == Step(w, List(caller, f, faults)).1
  {
    ListFills(w, caller, f, faults);
    KeysCollideIff(Normalise(f), Normalise(f.(status := Some(ALL))));
  }

  lemma {:induction false} SelectNone(tasks: seq<Task>, f: Filter)
    requires forall t :: t in tasks ==> !Matches(t, f)
    ensures Select(tasks, f) == []
  {
    if tasks != [] {
      assert tasks[0] in tasks;
      SelectNone(tasks[1..], f);
    }
  }

  lemma AllStatusFills(w: World, caller: Uuid, f: Filter, faults: Faults)
    requires AsksAfresh(w, caller, f, faults) && f.status == Some(ALL) && (forall t :: t in w.tasks ==> t.status != ALL)
    requires CacheKey(Normalise(f)) !in w.cache && ListTasks(w.tasks, Normalise(f)).Ok?
    ensures Step(w, List(caller, f, faults)) ==
      (w.(cache := w.cache[CacheKey(Normalise(f)) := CachedList([], 0)]), ListResponse(Ok(CachedList([], 0))))
  {
    SelectNone(w.tasks, Normalise(f));
  }

  /**
   * The other way round: asked first for the status "all", which no task has, the service stores the empty list,
   * and an unfiltered list then returns it, whatever tasks there are.
   */
  lemma AllStatusEmptiesUnfiltered(w: World, caller: Uuid, f: Filter, faults: Faults)
    requires AsksAfresh(w, caller, f, faults) && f.status == None && (forall t :: t in w.tasks ==> t.status != ALL)
    requires CacheKey(Normalise(f)) !in w.cache && ListTasks(w.tasks, Normalise(f)).Ok?
    ensures var g := f.(status := Some(ALL));
      Step(Step(w, List(caller, g, faults)).0, List(caller, f, faults)).1 == ListResponse(Ok(CachedList([], 0)))
  {
    var g := f.(status := Some(ALL));
    KeysCollideIff(Normalise(f), Normalise(g));
    assert Offset(Normalise(f)) == Offset(Normalise(g));
    AllStatusFills(w, caller, g, faults);
    HitAnswers(w.(cache := w.cache[CacheKey(Normalise(g)) := CachedList([], 0)]), caller, f, faults);
  }

  lemma HitAnswers(w: World, caller: Uuid, f: Filter, faults: Faults)
    requires AsksAfresh(w, caller, f, faults) && CacheKey(Normalise(f)) in w.cache
    ensures Step(w, List(caller, f, faults)).1 == ListResponse(Ok(w.cache[CacheKey(Normalise(f))]))
  {
  }

  /** While no task carries the status "all", that answer is wrong exactly when the unfiltered list is not empty. */
  lemma AllStatusWrongIff(tasks: seq<Task>, f: Filter)
    requires f.status == None && (forall t :: t in tasks ==> t.status != ALL)
    requires ListTasks(tasks, f).Ok?
    ensures ListTasks(tasks, f.(status := Some(ALL))) == ListTasks(tasks, f) <==> Total(tasks, f) == 0
  {
    var g := f.(status := Some(ALL));
    SelectNone(tasks, g);
    assert Offset(f) == Offset(g);
    if Total(tasks, f) == 0 {
      assert Select(tasks, f) == [];
    }
  }
}
