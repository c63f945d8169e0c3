/** The services as objects over a database and a cache; each method does exactly one step of the model. */
module Services {
  import opened Text
  import opened Domain
  import opened CacheKeys
  import opened TaskQuery
  import opened Audit
  import opened TaskCache
  import opened World
  import opened AuditTrail

  /** The tables, with the statements the storage layer runs on them. */
  class Database {
    var users: set<Uuid>
    var teams: map<Uuid, Team>
    var members: map<(Uuid, Uuid), Role>
    var tasks: seq<Task>
    var history: seq<HistoryRow>
    ghost var born: map<Uuid, Task>

    constructor ()
      ensures users == {} && teams == map[] && members == map[] && tasks == [] && history == [] && born == map[]
    {
      users, teams, members, tasks, history, born := {}, map[], map[], [], [], map[];
    }

    method GetMemberRole(team: Uuid, user: Uuid, fails: bool) returns (r: Result<Role>)
      ensures r == RoleOf(members, team, user, fails)
    {
      if fails { return Err(Internal); }
      if (team, user) !in members { return Err(NotFound); }
      r := Ok(members[(team, user)]);
    }

    /** Both inserts or neither. */
    method CreateTeamWithOwner(team: Team, owner: Uuid, fails: bool) returns (ok: bool)
      modifies this
      ensures ok == (!fails && team.id !in old(teams) && owner in users)
      ensures users == old(users) && tasks == old(tasks) && history == old(history) && born == old(born)
      ensures teams == if ok then old(teams)[team.id := team] else old(teams)
      ensures members == if ok then old(members)[(team.id, owner) := Owner] else old(members)
    {
      if team.id in teams || owner !in users || fails { return false; }
      teams := teams[team.id := team];
      members := members[(team.id, owner) := Owner];
      ok := true;
    }

    /** Insert, or rewrite the role of a row already there. */
    method SaveMember(team: Uuid, user: Uuid, role: Role, fails: bool) returns (ok: bool)
      modifies this`members
      ensures ok == !fails
      ensures members == if ok then old(members)[(team, user) := role] else old(members)
    {
      if fails { return false; }
      members := members[(team, user) := role];
      ok := true;
    }

    method SaveTask(task: Task, fails: bool) returns (ok: bool)
      modifies this`tasks, this`born
      ensures ok == (!fails && !HasId(old(tasks), task.id))
      ensures tasks == if ok then old(tasks) + [task] else old(tasks)
      ensures born == if ok then old(born)[task.id := task] else old(born)
    {
      var existing := Find(tasks, task.id);
      if existing.Some? || fails { return false; }
      tasks := tasks + [task];
      born := born[task.id := task];
      ok := true;
    }

    /** The transaction: the row and every history entry, or nothing; failAt is the statement that fails, or the commit. */
    method UpdateTaskWithHistory(task: Task, entries: seq<HistoryRow>, failAt: Option<nat>) returns (ok: bool)
      modifies this`tasks, this`history
      ensures ok == failAt.None?
      ensures tasks == if ok then Overwrite(old(tasks), task) else old(tasks)
      ensures history == if ok then old(history) + entries else old(history)
    {
      if failAt == Some(0) { return false; }
      var rows := Overwrite(tasks, task);
      var log := history;
      var i := 0;
      while i < |entries|
        invariant 0 <= i <= |entries|
        invariant log == old(history) + entries[..i]
        invariant failAt.Some? ==> failAt.value > i
        invariant tasks == old(tasks) && history == old(history)
      {
        if failAt == Some(i + 1) { return false; }
        log := log + [entries[i]];
        i := i + 1;
      }
      if failAt.Some? { return false; }
      tasks, history := rows, log;
      ok := true;
    }

    /** Rows of equal time come in the order they were inserted; any order of them would do. */
    method ListHistory(task: Uuid, fails: bool) returns (r: Result<seq<HistoryRow>>)
      ensures fails ==> r == Err(Internal)
      ensures !fails ==> r.Ok? && IsListing(RowsOf(history, task), r.value)
    {
      if fails { return Err(Internal); }
      var out := [];
      var i := 0;
      while i < |history|
        invariant 0 <= i <= |history|
        invariant IsListing(RowsOf(history[..i], task), out)
      {
        var h := history[i];
        assert history[..i + 1] == history[..i] + [h];
        RowsOfAppend(history[..i], [h], task);
        if h.task == task {
          InsertBehind(out, h);
          var k := Behind(out, h);
          out := out[..k] + [h] + out[k..];
        }
        i := i + 1;
      }
      assert history[..i] == history;
      r := Ok(out);
    }
  }

  ghost function WorldOf(db: Database, cache: Cache): World
    reads db, cache
  {
    World(db.users, db.teams, db.members, db.tasks, db.history, db.born, cache.entries)
  }

  /** A scan over this keyspace that keeps the promises of SCAN, with no other client at work. */
  ghost predicate QuietScan(team: Uuid, ks: Keyspace, rounds: seq<Round>) {
    Undisturbed(rounds) && OnlyMatching(CachePattern(team), rounds) && ScanPromise(CachePattern(team), ks, rounds)
  }

  class TeamService {
    const db: Database

    constructor (db: Database)
      ensures this.db == db
    {
      this.db := db;
    }

    method Create(owner: Uuid, name: string, id: Uuid, now: nat, fails: bool, ghost cache: Cache) returns (r: Result<Team>)
      modifies db
      ensures (WorldOf(db, cache), TeamResponse(r)) == CreateTeamStep(old(WorldOf(db, cache)), owner, name, id, now, fails)
    {
      var team := Team(id, name, owner, now);
      var ok := db.CreateTeamWithOwner(team, owner, fails);
      if !ok { return Err(Internal); }
      r := Ok(team);
    }

    /** The notification's outcome is ignored. */
    method Invite(caller: Uuid, team: Uuid, target: Uuid, faults: Faults, notified: bool, ghost cache: Cache) returns (r: Result<bool>)
      modifies db
      ensures (WorldOf(db, cache), InviteResponse(r)) == InviteStep(old(WorldOf(db, cache)), caller, team, target, faults)
    {
      if faults.read { return Err(Internal); }
      if team !in db.teams { return Err(NotFound); }
      var role := db.GetMemberRole(team, caller, faults.callerRole);
      if role == Err(NotFound) { return Err(Forbidden); }
      if role.Err? { return Err(role.error); }
      if role.value == Member { return Err(Forbidden); }
      if target !in db.users { return Err(NotFound); }
      var ok := db.SaveMember(team, target, Member, faults.write);
      if !ok { return Err(Internal); }
      r := Ok(true);
    }
  }

  class TaskService {
    const db: Database
    const cache: Cache

    constructor (db: Database, cache: Cache)
      ensures this.db == db && this.cache == cache
    {
      this.db := db;
      this.cache := cache;
    }

    /** Whatever other clients do meanwhile, the scan runs over the team's pattern; undisturbed, it is the model's step. */
    method InvalidateTeam(team: Uuid, rounds: seq<Round>) returns (ghost inv: Invalidation, ok: bool)
      modifies cache
      ensures (cache.entries, ok) == Scanned(old(cache.entries), rounds)
      ensures QuietScan(team, old(cache.entries), rounds) ==>
                cache.entries == Invalidated(old(cache.entries), team, inv) && (ok <==> inv.Cleared?)
    {
      var pattern := CachePattern(team);
      ghost var before := cache.entries;
      assert pattern[|pattern| - 1] == '*';
      ok := cache.Invalidate(pattern, rounds);
      inv := Cleared;
      if QuietScan(team, before, rounds) {
        InvalidateAlone(pattern, before, rounds);
        if !ok {
          ghost var gone :| gone <= Matching(pattern, before) && cache.entries == before - gone;
          inv := Failed(gone);
          assert Matching(pattern, before) * gone == gone;
        }
      }
    }

    method Authorise(team: Uuid, caller: Uuid, assignee: Option<Uuid>, faults: Faults) returns (refusal: Option<Error>)
      ensures refusal == Refusal(db.members, team, caller, assignee, faults)
    {
      var role := db.GetMemberRole(team, caller, faults.callerRole);
      if role == Err(NotFound) { return Some(Forbidden); }
      if role.Err? { return Some(role.error); }
      if assignee.Some? {
        var assigneeRole := db.GetMemberRole(team, assignee.value, faults.assigneeRole);
        if assigneeRole == Err(NotFound) { return Some(Forbidden); }
        if assigneeRole.Err? { return Some(assigneeRole.error); }
      }
      refusal := None;
    }

    method Create(caller: Uuid, c: CreateInput, id: Uuid, now: nat, faults: Faults, rounds: seq<Round>)
      returns (r: Result<Task>, ghost inv: Invalidation, invalidated: bool)
      modifies db, cache
      ensures (Bare(WorldOf(db, cache)), TaskResponse(r)) == CreateTaskStep(Bare(old(WorldOf(db, cache))), caller, c, id, now, faults, Cleared)
      ensures r.Ok? ==> (cache.entries, invalidated) == Scanned(old(cache.entries), rounds)
      ensures r.Err? ==> cache.entries == old(cache.entries)
      ensures QuietScan(c.team, old(cache.entries), rounds) ==>
                (WorldOf(db, cache), TaskResponse(r)) == CreateTaskStep(old(WorldOf(db, cache)), caller, c, id, now, faults, inv)
    {
      inv, invalidated := Cleared, true;
      var refusal := Authorise(c.team, caller, c.assignee, faults);
      if refusal.Some? { return Err(refusal.value), inv, true; }
      var priority := "medium";
      if c.priority != "" { priority := c.priority; }
      var task := Task(id, c.team, caller, c.assignee, c.title, c.description, "todo", priority, c.due, now, now);
      var ok := db.SaveTask(task, faults.write);
      if !ok { return Err(Internal), inv, true; }
      inv, invalidated := InvalidateTeam(c.team, rounds);
      r := Ok(task);
    }

    method List(caller: Uuid, filter: Filter, faults: Faults) returns (r: Result<CachedList>)
      modifies cache
      ensures (WorldOf(db, cache), ListResponse(r)) == ListStep(old(WorldOf(db, cache)), caller, filter, faults)
    {
      if filter.team.None? { return Err(Forbidden); }
      var role := db.GetMemberRole(filter.team.value, caller, faults.callerRole);
      if role == Err(NotFound) { return Err(Forbidden); }
      if role.Err? { return Err(role.error); }
      var f := filter;
      if f.page <= 0 { f := f.(page := 1); }
      if f.limit <= 0 { f := f.(limit := 20); }
      if f.limit > 100 { f := f.(limit := 100); }
      assert f == Normalise(filter);
      r := ListCached(f, faults);
    }

    /** Cache first, then the database, filling the cache. */
    method ListCached(f: Filter, faults: Faults) returns (r: Result<CachedList>)
      modifies cache
      ensures var key := CacheKey(f);
        var result := ListTasks(db.tasks, f);
        var hit := !faults.cacheGet && key in old(cache.entries);
        && r == (if hit then Ok(old(cache.entries)[key]) else if faults.read then Err(Internal) else result)
        && cache.entries == (if hit || r.Err? || faults.cacheSetLost then old(cache.entries) else old(cache.entries)[key := r.value])
    {
      var key := CacheKey(f);
      var cached := cache.Get(key, faults.cacheGet);
      if cached.Ok? { return cached; }
      if faults.read { return Err(Internal); }
      r := ListTasks(db.tasks, f);
      if r.Err? { return r; }
      cache.Set(key, r.value, faults.cacheSetLost);
    }

    /** The tail of an update, once the caller may make it. */
    method Commit(task: Task, caller: Uuid, u: UpdateInput, now: nat, failAt: Option<nat>, rounds: seq<Round>)
      returns (r: Result<Task>, ghost inv: Invalidation, invalidated: bool)
      modifies db`tasks, db`history, cache
      ensures failAt.Some? ==> r == Err(Internal) && WorldOf(db, cache) == old(WorldOf(db, cache))
      ensures failAt.None? ==> r == Ok(Applied(task, u).(updatedAt := now))
      ensures failAt.None? ==> Bare(WorldOf(db, cache)) == Committed(Bare(old(WorldOf(db, cache))), task, caller, u, now, Cleared)
      ensures failAt.None? ==> (cache.entries, invalidated) == Scanned(old(cache.entries), rounds)
      ensures failAt.None? && QuietScan(task.team, old(cache.entries), rounds) ==>
                WorldOf(db, cache) == Committed(old(WorldOf(db, cache)), task, caller, u, now, inv)
    {
      inv, invalidated := Cleared, true;
      var cell := new TaskCell(task);
      var entries := BuildHistoryEntries(cell, u, task.id, caller);
      cell.task := cell.task.(updatedAt := now);
      entries := StampAll(entries, now);
      var ok := db.UpdateTaskWithHistory(cell.task, entries, failAt);
      if !ok { return Err(Internal), inv, true; }
      inv, invalidated := InvalidateTeam(task.team, rounds);
      r := Ok(cell.task);
    }

    method Update(caller: Uuid, id: Uuid, u: UpdateInput, now: nat, faults: Faults, failAt: nat, rounds: seq<Round>)
      returns (r: Result<Task>, ghost inv: Invalidation, invalidated: bool)
      modifies db, cache
      ensures (Bare(WorldOf(db, cache)), TaskResponse(r)) == UpdateTaskStep(Bare(old(WorldOf(db, cache))), caller, id, u, now, faults, Cleared)
      ensures r.Ok? ==> (cache.entries, invalidated) == Scanned(old(cache.entries), rounds)
      ensures r.Err? ==> cache.entries == old(cache.entries)
      ensures (r.Ok? ==> QuietScan(r.value.team, old(cache.entries), rounds)) ==>
                (WorldOf(db, cache), TaskResponse(r)) == UpdateTaskStep(old(WorldOf(db, cache)), caller, id, u, now, faults, inv)
    {
      inv, invalidated := Cleared, true;
      if faults.read { return Err(Internal), inv, true; }
      var found := Find(db.tasks, id);
      if found.None? { return Err(NotFound), inv, true; }
      var task := found.value;
      var reassigned := u.assignee.Some? && task.assignee != u.assignee;
      var refusal := Authorise(task.team, caller, if reassigned then u.assignee else None, faults);
      if refusal.Some? { return Err(refusal.value), inv, true; }
      r, inv, invalidated := Commit(task, caller, u, now, if faults.write then Some(failAt) else None, rounds);
    }

    method History(caller: Uuid, id: Uuid, faults: Faults, listFails: bool) returns (r: Result<seq<HistoryRow>>)
      ensures r.Ok? ==> IsListing(RowsOf(db.history, id), r.value)
      ensures r.Ok? <==> (
                !faults.read && !faults.callerRole && !listFails && Find(db.tasks, id).Some?
                && (Find(db.tasks, id).value.team, caller) in db.members)
      ensures r == Err(NotFound) <==> !faults.read && Find(db.tasks, id).None?
    {
      if faults.read { return Err(Internal); }
      var found := Find(db.tasks, id);
      if found.None? { return Err(NotFound); }
      var role := db.GetMemberRole(found.value.team, caller, faults.callerRole);
      if role == Err(NotFound) { return Err(Forbidden); }
      if role.Err? { return Err(Internal); }
      r := db.ListHistory(id, listFails);
    }

    method StampAll(entries: seq<HistoryRow>, now: nat) returns (out: seq<HistoryRow>)
      ensures out == Stamped(entries, now)
    {
      out := entries;
      var i := 0;
      while i < |out|
        invariant 0 <= i <= |out| == |entries|
        invariant forall k :: 0 <= k < i ==> out[k] == entries[k].(changedAt := now)
        invariant forall k :: i <= k < |out| ==> out[k] == entries[k]
      {
        out := out[i := out[i].(changedAt := now)];
        i := i + 1;
      }
    }
  }
}
