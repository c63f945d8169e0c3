/** The whole service as one state and one step function: what each request does when requests do not overlap. */
module World {
  import opened Text
  import opened Domain
  import opened CacheKeys
  import opened TaskQuery
  import opened Audit
  import opened TaskCache

  /** born remembers each task as it was created; no request reads it. */
  datatype World = World(
    users: set<Uuid>, teams: map<Uuid, Team>, members: map<(Uuid, Uuid), Role>,
    tasks: seq<Task>, history: seq<HistoryRow>, born: map<Uuid, Task>, cache: Keyspace)

  const INITIAL := World({}, map[], map[], [], [], map[], map[])

  /** All but the cache. */
  function Bare(w: World): World {
    w.(cache := map[])
  }

  /** Which of the calls a request makes to its stores fail. */
  datatype Faults = Faults(read: bool, callerRole: bool, assigneeRole: bool, write: bool, cacheGet: bool, cacheSetLost: bool)

  /** A failed invalidation may still have removed some of the matching keys. */
  datatype Invalidation = Cleared | Failed(gone: set<string>)

  datatype Op =
    | Register(user: Uuid)
    | CreateTeam(owner: Uuid, name: string, id: Uuid, now: nat, fails: bool)
    | Invite(caller: Uuid, team: Uuid, target: Uuid, faults: Faults)
    | CreateTask(caller: Uuid, create: CreateInput, id: Uuid, now: nat, faults: Faults, inv: Invalidation)
    | List(caller: Uuid, filter: Filter, faults: Faults)
    | UpdateTask(caller: Uuid, task: Uuid, update: UpdateInput, now: nat, faults: Faults, inv: Invalidation)
    | Expire(keys: set<string>)

  datatype Response =
    | NoResponse
    | TeamResponse(team: Result<Team>)
    | InviteResponse(invited: Result<bool>)
    | TaskResponse(task: Result<Task>)
    | ListResponse(list: Result<CachedList>)

  function RoleOf(members: map<(Uuid, Uuid), Role>, team: Uuid, user: Uuid, fails: bool): Result<Role> {
    if fails then Err(Internal) else if (team, user) in members then Ok(members[(team, user)]) else Err(NotFound)
  }

  /** An absent membership is reported as a lack of permission. */
  function AsForbidden(e: Error): Error {
    if e == NotFound then Forbidden else e
  }

  /** Why a task may not be written: the caller, or an assignee about to be set, is not in the team. */
  function Refusal(members: map<(Uuid, Uuid), Role>, team: Uuid, caller: Uuid, assignee: Option<Uuid>, faults: Faults): Option<Error> {
    var role := RoleOf(members, team, caller, faults.callerRole);
    if role.Err? then Some(AsForbidden(role.error))
    else if assignee.None? then None
    else
      var assigneeRole := RoleOf(members, team, assignee.value, faults.assigneeRole);
      if assigneeRole.Err? then Some(AsForbidden(assigneeRole.error)) else None
  }

  function Invalidated(cache: Keyspace, team: Uuid, inv: Invalidation): Keyspace {
    var matching := Matching(CachePattern(team), cache);
    if inv.Cleared? then cache - matching else cache - (matching * inv.gone)
  }

  function NewTask(caller: Uuid, c: CreateInput, id: Uuid, now: nat): Task {
    Task(id, c.team, caller, c.assignee, c.title, c.description, "todo",
      if c.priority != "" then c.priority else "medium", c.due, now, now)
  }

  function CreateTeamStep(w: World, owner: Uuid, name: string, id: Uuid, now: nat, fails: bool): (World, Response) {
    var team := Team(id, name, owner, now);
    if fails || id in w.teams || owner !in w.users then (w, TeamResponse(Err(Internal)))
    else (w.(teams := w.teams[id := team], members := w.members[(id, owner) := Owner]), TeamResponse(Ok(team)))
  }

  function InviteStep(w: World, caller: Uuid, team: Uuid, target: Uuid, faults: Faults): (World, Response) {
    var role := RoleOf(w.members, team, caller, faults.callerRole);
    if faults.read then (w, InviteResponse(Err(Internal)))
    else if team !in w.teams then (w, InviteResponse(Err(NotFound)))
    else if role.Err? then (w, InviteResponse(Err(AsForbidden(role.error))))
    else if role.value == Member then (w, InviteResponse(Err(Forbidden)))
    else if target !in w.users then (w, InviteResponse(Err(NotFound)))
    else if faults.write then (w, InviteResponse(Err(Internal)))
    else (w.(members := w.members[(team, target) := Member]), InviteResponse(Ok(true)))
  }

  function CreateTaskStep(w: World, caller: Uuid, c: CreateInput, id: Uuid, now: nat, faults: Faults, inv: Invalidation): (World, Response) {
    var refusal := Refusal(w.members, c.team, caller, c.assignee, faults);
    var task := NewTask(caller, c, id, now);
    if refusal.Some? then (w, TaskResponse(Err(refusal.value)))
    else if faults.write || HasId(w.tasks, id) then (w, TaskResponse(Err(Internal)))
    else (w.(tasks := w.tasks + [task], born := w.born[id := task], cache := Invalidated(w.cache, c.team, inv)),
      TaskResponse(Ok(task)))
  }

  function ListStep(w: World, caller: Uuid, filter: Filter, faults: Faults): (World, Response) {
    if filter.team.None? then (w, ListResponse(Err(Forbidden)))
    else
      var role := RoleOf(w.members, filter.team.value, caller, faults.callerRole);
      var f := Normalise(filter);
      var key := CacheKey(f);
      var result := ListTasks(w.tasks, f);
      if role.Err? then (w, ListResponse(Err(AsForbidden(role.error))))
      else if !faults.cacheGet && key in w.cache then (w, ListResponse(Ok(w.cache[key])))
      else if faults.read then (w, ListResponse(Err(Internal)))
      else if result.Err? then (w, ListResponse(result))
      else (if faults.cacheSetLost then w else w.(cache := w.cache[key := result.value]), ListResponse(result))
  }

  /** The state after the update of t is stored and the lists of its team are invalidated. */
  function Committed(w: World, t: Task, caller: Uuid, u: UpdateInput, now: nat, inv: Invalidation): World {
    w.(tasks := Overwrite(w.tasks, Applied(t, u).(updatedAt := now)),
       history := w.history + Stamped(Entries(t, u, t.id, caller), now),
       cache := Invalidated(w.cache, t.team, inv))
  }

  function UpdateTaskStep(w: World, caller: Uuid, id: Uuid, u: UpdateInput, now: nat, faults: Faults, inv: Invalidation): (World, Response) {
    var found := Find(w.tasks, id);
    if faults.read then (w, TaskResponse(Err(Internal)))
    else if found.None? then (w, TaskResponse(Err(NotFound)))
    else
      var t := found.value;
      var refusal := Refusal(w.members, t.team, caller, if Changes(t, u, AssigneeId) then u.assignee else None, faults);
      if refusal.Some? then (w, TaskResponse(Err(refusal.value)))
      else if faults.write then (w, TaskResponse(Err(Internal)))
      else (Committed(w, t, caller, u, now, inv), TaskResponse(Ok(Applied(t, u).(updatedAt := now))))
  }

  function Step(w: World, op: Op): (World, Response) {
    match op
    case Register(user) => (w.(users := w.users + {user}), NoResponse)
    case CreateTeam(owner, name, id, now, fails) => CreateTeamStep(w, owner, name, id, now, fails)
    case Invite(caller, team, target, faults) => InviteStep(w, caller, team, target, faults)
    case CreateTask(caller, c, id, now, faults, inv) => CreateTaskStep(w, caller, c, id, now, faults, inv)
    case List(caller, filter, faults) => ListStep(w, caller, filter, faults)
    case UpdateTask(caller, id, u, now, faults, inv) => UpdateTaskStep(w, caller, id, u, now, faults, inv)
    case Expire(keys) => (w.(cache := w.cache - keys), NoResponse)
  }

  function Run(w: World, ops: seq<Op>): World
    decreases |ops|
  {
    if ops == [] then w else Run(Step(w, ops[0]).0, ops[1..])
  }

  function Responses(w: World, ops: seq<Op>): seq<Response>
    decreases |ops|
  {
    if ops == [] then [] else [Step(w, ops[0]).1] + Responses(Step(w, ops[0]).0, ops[1..])
  }

  lemma {:induction false} RunAppend(w: World, ops: seq<Op>, op: Op)
    ensures Run(w, ops + [op]) == Step(Run(w, ops), op).0
    decreases |ops|
  {
    if ops == [] {
      assert (ops + [op])[1..] == [];
    } else {
      assert (ops + [op])[1..] == ops[1..] + [op];
      RunAppend(Step(w, ops[0]).0, ops[1..], op);
    }
  }

  lemma RunLast(w: World, ops: seq<Op>, n: nat)
    requires |ops| == n + 1
    ensures Run(w, ops) == Step(Run(w, ops[..n]), ops[n]).0
  {
    assert ops == ops[..n] + [ops[n]];
    RunAppend(w, ops[..n], ops[n]);
  }

  // ---- the table keeps its keys ----

  ghost predicate UniqueIds(tasks: seq<Task>) {
    forall i, j :: 0 <= i < j < |tasks| ==> tasks[i].id != tasks[j].id
  }

  /** Only creating and updating tasks touches what is stored about tasks. */
  lemma OthersKeepTasks(w: World, op: Op)
    requires !op.CreateTask? && !op.UpdateTask?
    ensures var v := Step(w, op).0;
      v.tasks == w.tasks && v.history == w.history && v.born == w.born
  {
  }

  lemma CreateKeepsUnique(w: World, caller: Uuid, c: CreateInput, id: Uuid, now: nat, faults: Faults, inv: Invalidation)
    requires UniqueIds(w.tasks)
    ensures UniqueIds(CreateTaskStep(w, caller, c, id, now, faults, inv).0.tasks)
  {
  }

  lemma UpdateKeepsUnique(w: World, caller: Uuid, id: Uuid, u: UpdateInput, now: nat, faults: Faults, inv: Invalidation)
    requires UniqueIds(w.tasks)
    ensures UniqueIds(UpdateTaskStep(w, caller, id, u, now, faults, inv).0.tasks)
  {
    var found := Find(w.tasks, id);
    if found.Some? { OverwriteAt(w.tasks, Applied(found.value, u).(updatedAt := now)); }
  }

  lemma UniqueIdsStep(w: World, op: Op)
    requires UniqueIds(w.tasks)
    ensures UniqueIds(Step(w, op).0.tasks)
  {
    match op {
      case CreateTask(caller, c, id, now, faults, inv) => CreateKeepsUnique(w, caller, c, id, now, faults, inv);
      case UpdateTask(caller, id, u, now, faults, inv) => UpdateKeepsUnique(w, caller, id, u, now, faults, inv);
      case _ => OthersKeepTasks(w, op);
    }
  }

  /** With unique ids the row found is the only one an update touches. */
  lemma FoundIsOnly(tasks: seq<Task>, id: Uuid, t: Task)
    requires UniqueIds(tasks) && Find(tasks, id) == Some(t)
    ensures forall r :: r in tasks && r.id == id ==> r == t
  {
  }
}
