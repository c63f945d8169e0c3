/** The three analytical queries, as the SQL states them, against what they are meant to count. */
module Analytics {
  import opened Text
  import opened Domain

  // ---- team summaries: two LEFT JOINs, then COUNT(DISTINCT ...) ----

  const WEEK: int := 7 * 86_400_000
  const MONTH: int := 30 * 86_400_000

  function MembersOf(rows: seq<(Uuid, Uuid)>, team: Uuid): seq<Uuid> {
    if rows == [] then []
    else (if rows[0].0 == team then [rows[0].1] else []) + MembersOf(rows[1..], team)
  }

  function TasksOf(tasks: seq<Task>, team: Uuid): seq<Task> {
    if tasks == [] then []
    else (if tasks[0].team == team then [tasks[0]] else []) + TasksOf(tasks[1..], team)
  }

  /** The right side of a LEFT JOIN: the matching rows, or one row of NULLs. */
  function Optional<T>(rows: seq<T>): seq<Option<T>> {
    if rows == [] then [None] else seq(|rows|, i requires 0 <= i < |rows| => Some(rows[i]))
  }

  /** A row of the joined table: a team, one of its members, one of its tasks; NULL where it has none. */
  datatype JoinedRow = JoinedRow(team: Team, member: Option<Uuid>, task: Option<Task>)

  function WithMember(team: Team, ms: seq<Option<Uuid>>): seq<(Team, Option<Uuid>)> {
    seq(|ms|, i requires 0 <= i < |ms| => (team, ms[i]))
  }

  /** teams LEFT JOIN team_members */
  function JoinMembers(teams: seq<Team>, members: seq<(Uuid, Uuid)>): seq<(Team, Option<Uuid>)> {
    if teams == [] then []
    else WithMember(teams[0], Optional(MembersOf(members, teams[0].id))) + JoinMembers(teams[1..], members)
  }

  function WithTask(row: (Team, Option<Uuid>), ks: seq<Option<Task>>): seq<JoinedRow> {
    seq(|ks|, i requires 0 <= i < |ks| => JoinedRow(row.0, row.1, ks[i]))
  }

  /** ... LEFT JOIN tasks */
  function JoinTasks(rows: seq<(Team, Option<Uuid>)>, tasks: seq<Task>): seq<JoinedRow> {
    if rows == [] then []
    else WithTask(rows[0], Optional(TasksOf(tasks, rows[0].0.id))) + JoinTasks(rows[1..], tasks)
  }

  function Joined(teams: seq<Team>, members: seq<(Uuid, Uuid)>, tasks: seq<Task>): seq<JoinedRow> {
    JoinTasks(JoinMembers(teams, members), tasks)
  }

  predicate DoneLately(t: Task, now: int) {
    t.status == "done" && t.updatedAt >= now - WEEK
  }

  /** GROUP BY t.id, t.name */
  function Group(rows: seq<JoinedRow>, id: Uuid, name: string): seq<JoinedRow> {
    if rows == [] then []
    else (if rows[0].team.id == id && rows[0].team.name == name then [rows[0]] else []) + Group(rows[1..], id, name)
  }

  function DistinctMembers(group: seq<JoinedRow>): set<Uuid> {
    set r | r in group && r.member.Some? :: r.member.value
  }

  function DistinctDone(group: seq<JoinedRow>, now: int): set<Uuid> {
    set r | r in group && r.task.Some? && DoneLately(r.task.value, now) :: r.task.value.id
  }

  datatype Summary = Summary(members: nat, done: nat)

  /** The result: one row for each group, with its two COUNT(DISTINCT ...). */
  function TeamSummaries(teams: seq<Team>, members: seq<(Uuid, Uuid)>, tasks: seq<Task>, now: int): map<(Uuid, string), Summary> {
    var rows := Joined(teams, members, tasks);
    map key | key in set r | r in rows :: (r.team.id, r.team.name) ::
      Summary(|DistinctMembers(Group(rows, key.0, key.1))|, |DistinctDone(Group(rows, key.0, key.1), now)|)
  }

  lemma OptionalContains<T>(rows: seq<T>, x: Option<T>)
    ensures x in Optional(rows) <==> if x.Some? then x.value in rows else rows == []
  {
    if rows == [] {
      assert Optional(rows)[0] == None;
    } else if x.Some? && x.value in rows {
      var i :| 0 <= i < |rows| && rows[i] == x.value;
      assert Optional(rows)[i] == x;
    }
  }

  lemma {:induction false} MembersOfExactly(rows: seq<(Uuid, Uuid)>, team: Uuid)
    ensures forall u :: u in MembersOf(rows, team) <==> (team, u) in rows
  {
    if rows != [] {
      MembersOfExactly(rows[1..], team);
      assert rows == [rows[0]] + rows[1..];
    }
  }

  lemma {:induction false} TasksOfExactly(tasks: seq<Task>, team: Uuid)
    ensures forall t :: t in TasksOf(tasks, team) <==> t in tasks && t.team == team
  {
    if tasks != [] {
      TasksOfExactly(tasks[1..], team);
      assert tasks == [tasks[0]] + tasks[1..];
    }
  }

  /** What stands on either side of a joined row: a row of the table, or NULL if the table has none for the team. */
  ghost predicate LeftSide(members: seq<(Uuid, Uuid)>, team: Uuid, m: Option<Uuid>) {
    if m.Some? then (team, m.value) in members else MembersOf(members, team) == []
  }

  ghost predicate RightSide(tasks: seq<Task>, team: Uuid, k: Option<Task>) {
    if k.Some? then k.value in tasks && k.value.team == team else TasksOf(tasks, team) == []
  }

  lemma {:induction false} JoinMembersContains(teams: seq<Team>, members: seq<(Uuid, Uuid)>, p: (Team, Option<Uuid>))
    ensures p in JoinMembers(teams, members) <==> p.0 in teams && LeftSide(members, p.0.id, p.1)
  {
    if teams != [] {
      var ms := Optional(MembersOf(members, teams[0].id));
      JoinMembersContains(teams[1..], members, p);
      MembersOfExactly(members, teams[0].id);
      OptionalContains(MembersOf(members, teams[0].id), p.1);
      assert p in WithMember(teams[0], ms) <==> p.0 == teams[0] && p.1 in ms by {
        if p.0 == teams[0] && p.1 in ms {
          var i :| 0 <= i < |ms| && ms[i] == p.1;
          assert WithMember(teams[0], ms)[i] == p;
        }
      }
      assert p.0 in teams <==> p.0 == teams[0] || p.0 in teams[1..];
    }
  }

  lemma {:induction false} JoinTasksContains(rows: seq<(Team, Option<Uuid>)>, tasks: seq<Task>, r: JoinedRow)
    ensures r in JoinTasks(rows, tasks) <==> (r.team, r.member) in rows && RightSide(tasks, r.team.id, r.task)
  {
    if rows != [] {
      var p := (r.team, r.member);
      var ks := Optional(TasksOf(tasks, rows[0].0.id));
      JoinTasksContains(rows[1..], tasks, r);
      TasksOfExactly(tasks, rows[0].0.id);
      OptionalContains(TasksOf(tasks, rows[0].0.id), r.task);
      assert r in WithTask(rows[0], ks) <==> p == rows[0] && r.task in ks by {
        if p == rows[0] && r.task in ks {
          var i :| 0 <= i < |ks| && ks[i] == r.task;
          assert WithTask(rows[0], ks)[i] == r;
        }
      }
      assert p in rows <==> p == rows[0] || p in rows[1..];
    }
  }

  /** The joined table holds each team with each of its members and each of its tasks. */
  lemma JoinedContains(teams: seq<Team>, members: seq<(Uuid, Uuid)>, tasks: seq<Task>, r: JoinedRow)
    ensures r in Joined(teams, members, tasks) <==>
      r.team in teams && LeftSide(members, r.team.id, r.member) && RightSide(tasks, r.team.id, r.task)
  {
    JoinTasksContains(JoinMembers(teams, members), tasks, r);
    JoinMembersContains(teams, members, (r.team, r.member));
  }

  lemma {:induction false} GroupContains(rows: seq<JoinedRow>, id: Uuid, name: string)
    ensures forall r :: r in Group(rows, id, name) <==> r in rows && r.team.id == id && r.team.name == name
  {
    if rows != [] {
      GroupContains(rows[1..], id, name);
      assert rows == [rows[0]] + rows[1..];
    }
  }

  lemma SomeLeftSide(members: seq<(Uuid, Uuid)>, team: Uuid) returns (m: Option<Uuid>)
    ensures LeftSide(members, team, m)
  {
    MembersOfExactly(members, team);
    var ms := MembersOf(members, team);
    m := if ms == [] then None else Some(ms[0]);
  }

  lemma SomeRightSide(tasks: seq<Task>, team: Uuid) returns (k: Option<Task>)
    ensures RightSide(tasks, team, k)
  {
    TasksOfExactly(tasks, team);
    var ks := TasksOf(tasks, team);
    k := if ks == [] then None else Some(ks[0]);
  }

  lemma MembersInGroup(teams: seq<Team>, members: seq<(Uuid, Uuid)>, tasks: seq<Task>, t: Team)
    requires t in teams
    ensures DistinctMembers(Group(Joined(teams, members, tasks), t.id, t.name)) == set m | m in members && m.0 == t.id :: m.1
  {
    var rows := Joined(teams, members, tasks);
    var group := Group(rows, t.id, t.name);
    GroupContains(rows, t.id, t.name);
    var k := SomeRightSide(tasks, t.id);
    forall u: Uuid
      ensures u in DistinctMembers(group) <==> (t.id, u) in members
    {
      JoinedContains(teams, members, tasks, JoinedRow(t, Some(u), k));
      if u in DistinctMembers(group) {
        var r :| r in group && r.member == Some(u);
        JoinedContains(teams, members, tasks, r);
      }
      if (t.id, u) in members {
        assert JoinedRow(t, Some(u), k) in group;
      }
    }
  }

  lemma DoneInGroup(teams: seq<Team>, members: seq<(Uuid, Uuid)>, tasks: seq<Task>, t: Team, now: int)
    requires t in teams
    ensures DistinctDone(Group(Joined(teams, members, tasks), t.id, t.name), now) ==
      set k | k in tasks && k.team == t.id && DoneLately(k, now) :: k.id
  {
    var rows := Joined(teams, members, tasks);
    var group := Group(rows, t.id, t.name);
    GroupContains(rows, t.id, t.name);
    var m := SomeLeftSide(members, t.id);
    forall k | k in tasks && k.team == t.id && DoneLately(k, now)
      ensures k.id in DistinctDone(group, now)
    {
      JoinedContains(teams, members, tasks, JoinedRow(t, m, Some(k)));
      assert JoinedRow(t, m, Some(k)) in group;
    }
    forall r | r in group && r.task.Some?
      ensures r.task.value in tasks && r.task.value.team == t.id
    {
      JoinedContains(teams, members, tasks, r);
    }
  }

  lemma {:induction false} DistinctSize<T>(s: seq<T>)
    requires forall i, j :: 0 <= i < j < |s| ==> s[i] != s[j]
    ensures |set x | x in s| == |s|
  {
    if s != [] {
      DistinctSize(s[1..]);
      assert (set x | x in s) == (set x | x in s[1..]) + {s[0]};
    }
  }

  function DoneIds(tasks: seq<Task>, team: Uuid, now: int): seq<Uuid> {
    if tasks == [] then []
    else (if tasks[0].team == team && DoneLately(tasks[0], now) then [tasks[0].id] else []) + DoneIds(tasks[1..], team, now)
  }

  lemma {:induction false} DoneIdsDistinct(tasks: seq<Task>, team: Uuid, now: int)
    requires forall i, j :: 0 <= i < j < |tasks| ==> tasks[i].id != tasks[j].id
    ensures forall id :: id in DoneIds(tasks, team, now) <==> exists k :: k in tasks && k.id == id && k.team == team && DoneLately(k, now)
    ensures forall i, j :: 0 <= i < j < |DoneIds(tasks, team, now)| ==> DoneIds(tasks, team, now)[i] != DoneIds(tasks, team, now)[j]
  {
    if tasks != [] {
      DoneIdsDistinct(tasks[1..], team, now);
      var rest := DoneIds(tasks[1..], team, now);
      assert tasks[0].id !in rest;
      assert tasks == [tasks[0]] + tasks[1..];
    }
  }

  lemma {:induction false} MembersOfDistinct(members: seq<(Uuid, Uuid)>, team: Uuid)
    requires forall i, j :: 0 <= i < j < |members| ==> members[i] != members[j]
    ensures forall i, j :: 0 <= i < j < |MembersOf(members, team)| ==> MembersOf(members, team)[i] != MembersOf(members, team)[j]
  {
    if members != [] {
      MembersOfDistinct(members[1..], team);
      MembersOfExactly(members[1..], team);
      assert members[0] !in members[1..];
    }
  }

  /**
   * COUNT(DISTINCT) undoes the fan-out: there is a row for each team, and its two numbers are the team's member
   * rows and its task rows done in the last week, also for a team without members or without tasks.
   */
  lemma SummaryCountsIndependently(teams: seq<Team>, members: seq<(Uuid, Uuid)>, tasks: seq<Task>, now: int)
    requires forall i, j :: 0 <= i < j < |members| ==> members[i] != members[j]
    requires forall i, j :: 0 <= i < j < |tasks| ==> tasks[i].id != tasks[j].id
    ensures TeamSummaries(teams, members, tasks, now).Keys == set t | t in teams :: (t.id, t.name)
    ensures var result := TeamSummaries(teams, members, tasks, now);
      forall t :: t in teams ==> result[(t.id, t.name)] == Summary(|MembersOf(members, t.id)|, |DoneIds(tasks, t.id, now)|)
  {
    SummaryForEachTeam(teams, members, tasks, now);
    forall t | t in teams
      ensures TeamSummaries(teams, members, tasks, now)[(t.id, t.name)] == Summary(|MembersOf(members, t.id)|, |DoneIds(tasks, t.id, now)|)
    {
      MembersInGroup(teams, members, tasks, t);
      DoneInGroup(teams, members, tasks, t, now);
      CountsAreRows(members, tasks, t.id, now);
    }
  }

  /** The places of the rows that each number counts. */
  function MemberRows(members: seq<(Uuid, Uuid)>, team: Uuid): set<int> {
    set i | 0 <= i < |members| && members[i].0 == team
  }

  function DoneRows(tasks: seq<Task>, team: Uuid, now: int): set<int> {
    set i | 0 <= i < |tasks| && DoneRow(tasks[i], team, now)
  }

  lemma {:induction false} MemberRowsCount(members: seq<(Uuid, Uuid)>, team: Uuid)
    ensures |MemberRows(members, team)| == |MembersOf(members, team)|
    decreases |members|
  {
    if members != [] {
      var n := |members| - 1;
      assert members == members[..n] + [members[n]];
      MemberRowsCount(members[..n], team);
      MembersOfAppend(members[..n], [members[n]], team);
      assert MemberRows(members, team) == MemberRows(members[..n], team) + if members[n].0 == team then {n} else {};
    }
  }

  lemma {:induction false} MembersOfAppend(a: seq<(Uuid, Uuid)>, b: seq<(Uuid, Uuid)>, team: Uuid)
    ensures MembersOf(a + b, team) == MembersOf(a, team) + MembersOf(b, team)
  {
    if a == [] {
      assert a + b == b;
    } else {
      assert (a + b)[1..] == a[1..] + b;
      MembersOfAppend(a[1..], b, team);
    }
  }

  /** Done, and last updated at most seven days of 86 400 000 ms before now. */
  predicate DoneRow(t: Task, team: Uuid, now: int) {
    t.team == team && t.status == "done" && now - t.updatedAt <= 604_800_000
  }

  lemma DoneRowsStep(tasks: seq<Task>, team: Uuid, now: int)
    requires tasks != []
    ensures var n := |tasks| - 1;
      DoneRows(tasks, team, now) == DoneRows(tasks[..n], team, now) + if DoneRow(tasks[n], team, now) then {n} else {}
  {
    var n := |tasks| - 1;
    forall i
      ensures i in DoneRows(tasks, team, now) <==> i in DoneRows(tasks[..n], team, now) || (i == n && DoneRow(tasks[n], team, now))
    {
      if 0 <= i < n { assert tasks[..n][i] == tasks[i]; }
    }
  }

  lemma {:induction false} DoneRowsCount(tasks: seq<Task>, team: Uuid, now: int)
    ensures |DoneRows(tasks, team, now)| == |DoneIds(tasks, team, now)|
    decreases |tasks|
  {
    if tasks != [] {
      var n := |tasks| - 1;
      assert tasks == tasks[..n] + [tasks[n]];
      DoneRowsCount(tasks[..n], team, now);
      DoneIdsAppend(tasks[..n], [tasks[n]], team, now);
      DoneRowsStep(tasks, team, now);
    }
  }

  lemma {:induction false} DoneIdsAppend(a: seq<Task>, b: seq<Task>, team: Uuid, now: int)
    ensures DoneIds(a + b, team, now) == DoneIds(a, team, now) + DoneIds(b, team, now)
  {
    if a == [] {
      assert a + b == b;
    } else {
      assert (a + b)[1..] == a[1..] + b;
      DoneIdsAppend(a[1..], b, team, now);
    }
  }

  /**
   * The report, in terms of the three tables: one row for each team; its numbers are the rows of the team in
   * team_members, and in tasks those that are done and were updated at most seven days ago.
   */
  lemma SummaryMeaning(teams: seq<Team>, members: seq<(Uuid, Uuid)>, tasks: seq<Task>, now: int)
    requires forall i, j :: 0 <= i < j < |members| ==> members[i] != members[j]
    requires forall i, j :: 0 <= i < j < |tasks| ==> tasks[i].id != tasks[j].id
    ensures var result := TeamSummaries(teams, members, tasks, now);
      && result.Keys == (set t | t in teams :: (t.id, t.name))
      && forall t :: t in teams ==>
           result[(t.id, t.name)] == Summary(|MemberRows(members, t.id)|, |DoneRows(tasks, t.id, now)|)
  {
    SummaryCountsIndependently(teams, members, tasks, now);
    forall t | t in teams
      ensures |MemberRows(members, t.id)| == |MembersOf(members, t.id)|
      ensures |DoneRows(tasks, t.id, now)| == |DoneIds(tasks, t.id, now)|
    {
      MemberRowsCount(members, t.id);
      DoneRowsCount(tasks, t.id, now);
    }
  }

  /** At exactly seven days a done task still counts, a millisecond later it does not. */
  lemma SevenDaysOld(team: Team, members: seq<(Uuid, Uuid)>, t: Task, late: int)
    requires t.team == team.id && t.status == "done"
    requires forall i, j :: 0 <= i < j < |members| ==> members[i] != members[j]
    ensures var result := TeamSummaries([team], members, [t], t.updatedAt + 604_800_000 + late);
      (team.id, team.name) in result && result[(team.id, team.name)].done == if late <= 0 then 1 else 0
  {
    var now := t.updatedAt + 604_800_000 + late;
    SummaryMeaning([team], members, [t], now);
    assert team in [team];
    OnlyRow(t, team.id, now);
  }

  lemma OnlyRow(t: Task, team: Uuid, now: int)
    ensures |DoneRows([t], team, now)| == if DoneRow(t, team, now) then 1 else 0
  {
    assert [t][..0] == [] && DoneRows([], team, now) == {};
    DoneRowsStep([t], team, now);
  }

  lemma CountsAreRows(members: seq<(Uuid, Uuid)>, tasks: seq<Task>, team: Uuid, now: int)
    requires forall i, j :: 0 <= i < j < |members| ==> members[i] != members[j]
    requires forall i, j :: 0 <= i < j < |tasks| ==> tasks[i].id != tasks[j].id
    ensures |set m | m in members && m.0 == team :: m.1| == |MembersOf(members, team)|
    ensures |set k | k in tasks && k.team == team && DoneLately(k, now) :: k.id| == |DoneIds(tasks, team, now)|
  {
    MembersOfExactly(members, team);
    MembersOfDistinct(members, team);
    DistinctSize(MembersOf(members, team));
    assert (set m | m in members && m.0 == team :: m.1) == set u | u in MembersOf(members, team);
    DoneIdsDistinct(tasks, team, now);
    DistinctSize(DoneIds(tasks, team, now));
    assert (set k | k in tasks && k.team == team && DoneLately(k, now) :: k.id) == set id | id in DoneIds(tasks, team, now);
  }

  lemma SummaryForEachTeam(teams: seq<Team>, members: seq<(Uuid, Uuid)>, tasks: seq<Task>, now: int)
    ensures TeamSummaries(teams, members, tasks, now).Keys == set t | t in teams :: (t.id, t.name)
  {
    var rows := Joined(teams, members, tasks);
    forall t | t in teams
      ensures exists r :: r in rows && r.team == t
    {
      var m := SomeLeftSide(members, t.id);
      var k := SomeRightSide(tasks, t.id);
      JoinedContains(teams, members, tasks, JoinedRow(t, m, k));
    }
    forall r | r in rows
      ensures r.team in teams
    {
      JoinedContains(teams, members, tasks, r);
    }
  }

  // ---- how many rows the joins make ----

  lemma {:induction false} JoinTasksAppend(a: seq<(Team, Option<Uuid>)>, b: seq<(Team, Option<Uuid>)>, tasks: seq<Task>)
    ensures JoinTasks(a + b, tasks) == JoinTasks(a, tasks) + JoinTasks(b, tasks)
  {
    if a == [] {
      assert a + b == b;
    } else {
      assert (a + b)[1..] == a[1..] + b;
      JoinTasksAppend(a[1..], b, tasks);
    }
  }

  lemma {:induction false} GroupAppend(a: seq<JoinedRow>, b: seq<JoinedRow>, id: Uuid, name: string)
    ensures Group(a + b, id, name) == Group(a, id, name) + Group(b, id, name)
  {
    if a == [] {
      assert a + b == b;
    } else {
      assert (a + b)[1..] == a[1..] + b;
      GroupAppend(a[1..], b, id, name);
    }
  }

  lemma {:induction false} GroupUniform(rows: seq<JoinedRow>, t: Team, id: Uuid, name: string)
    requires forall r :: r in rows ==> r.team == t
    ensures Group(rows, id, name) == if t.id == id && t.name == name then rows else []
  {
    if rows != [] {
      assert rows[0] in rows;
      GroupUniform(rows[1..], t, id, name);
    }
  }

  lemma OneMore(n: nat, k: nat)
    requires n > 0
    ensures n * k == k + (n - 1) * k
  {
  }

  /** The rows of one team: each member with each task. */
  lemma {:induction false} BlockSize(t: Team, ms: seq<Option<Uuid>>, tasks: seq<Task>)
    ensures |JoinTasks(WithMember(t, ms), tasks)| == |ms| * |Optional(TasksOf(tasks, t.id))|
    ensures forall r :: r in JoinTasks(WithMember(t, ms), tasks) ==> r.team == t
  {
    var rows := WithMember(t, ms);
    var ks := Optional(TasksOf(tasks, t.id));
    if ms != [] {
      assert rows[1..] == WithMember(t, ms[1..]) && rows[0] == (t, ms[0]);
      BlockSize(t, ms[1..], tasks);
      OneMore(|ms|, |ks|);
      assert JoinTasks(rows, tasks) == WithTask(rows[0], ks) + JoinTasks(rows[1..], tasks);
    }
  }

  /** The joined table begins with the rows of its first team. */
  lemma FirstBlock(teams: seq<Team>, members: seq<(Uuid, Uuid)>, tasks: seq<Task>, id: Uuid, name: string)
    requires teams != []
    ensures var t := teams[0];
      var block := JoinTasks(WithMember(t, Optional(MembersOf(members, t.id))), tasks);
      var rest := Group(Joined(teams[1..], members, tasks), id, name);
      Group(Joined(teams, members, tasks), id, name) == if t.id == id && t.name == name then block + rest else rest
  {
    var ms := Optional(MembersOf(members, teams[0].id));
    var block, rest := JoinTasks(WithMember(teams[0], ms), tasks), Joined(teams[1..], members, tasks);
    JoinTasksAppend(WithMember(teams[0], ms), JoinMembers(teams[1..], members), tasks);
    BlockSize(teams[0], ms, tasks);
    GroupAppend(block, rest, id, name);
    GroupUniform(block, teams[0], id, name);
  }

  lemma {:induction false} GroupOfAbsent(teams: seq<Team>, members: seq<(Uuid, Uuid)>, tasks: seq<Task>, id: Uuid, name: string)
    requires forall t :: t in teams ==> t.id != id
    ensures Group(Joined(teams, members, tasks), id, name) == []
  {
    if teams != [] {
      assert teams[0] in teams;
      FirstBlock(teams, members, tasks, id, name);
      GroupOfAbsent(teams[1..], members, tasks, id, name);
    }
  }

  /** The joins multiply: the group of a team has a row for each pair of a member and a task. */
  lemma {:induction false} JoinFansOut(teams: seq<Team>, members: seq<(Uuid, Uuid)>, tasks: seq<Task>, t: Team)
    requires t in teams && forall i, j :: 0 <= i < j < |teams| ==> teams[i].id != teams[j].id
    ensures var m, k := |MembersOf(members, t.id)|, |TasksOf(tasks, t.id)|;
      |Group(Joined(teams, members, tasks), t.id, t.name)| == (if m == 0 then 1 else m) * (if k == 0 then 1 else k)
  {
    FirstBlock(teams, members, tasks, t.id, t.name);
    if t == teams[0] {
      GroupOfAbsent(teams[1..], members, tasks, t.id, t.name);
      BlockSize(t, Optional(MembersOf(members, t.id)), tasks);
    } else {
      JoinFansOut(teams[1..], members, tasks, t);
    }
  }

  // ---- top contributors: GROUP BY, RANK(), rank <= 3 ----

  /** COUNT(*) of one (team, user) group since the given moment. */
  function Created(tasks: seq<Task>, team: Uuid, since: int, user: Uuid): nat {
    if tasks == [] then 0
    else
      (if tasks[0].team == team && tasks[0].createdBy == user && tasks[0].createdAt >= since then 1 else 0)
      + Created(tasks[1..], team, since, user)
  }

  function Contributors(tasks: seq<Task>, team: Uuid, since: int): set<Uuid> {
    set t | t in tasks && t.team == team && t.createdAt >= since :: t.createdBy
  }

  /** The groups of one team in an order RANK() may work through: falling counts, ties anyhow. */
  ghost predicate IsPartition(part: seq<(Uuid, nat)>, tasks: seq<Task>, team: Uuid, since: int) {
    && (forall i, j :: 0 <= i < j < |part| ==> part[i].0 != part[j].0)
    && (forall u :: u in Contributors(tasks, team, since) <==> exists i :: 0 <= i < |part| && part[i].0 == u)
    && (forall i :: 0 <= i < |part| ==> part[i].1 == Created(tasks, team, since, part[i].0))
    && (forall i, j :: 0 <= i < j < |part| ==> part[i].1 >= part[j].1)
  }

  /** RANK(): a row equal to the one before shares its rank, any other has its position as rank. */
  function Rank(part: seq<(Uuid, nat)>, i: nat): nat
    requires i < |part|
  {
    if i > 0 && part[i].1 == part[i - 1].1 then Rank(part, i - 1) else i + 1
  }

  /** The contributors of the team with strictly more tasks than the user. */
  function Ahead(tasks: seq<Task>, team: Uuid, since: int, user: Uuid): set<Uuid> {
    set v | v in Contributors(tasks, team, since) && Created(tasks, team, since, v) > Created(tasks, team, since, user)
  }

  lemma {:induction false} RankIsFirstPeer(part: seq<(Uuid, nat)>, i: nat)
    requires i < |part| && (forall j, k :: 0 <= j < k < |part| ==> part[j].1 >= part[k].1)
    ensures 1 <= Rank(part, i) <= i + 1
    ensures forall j :: 0 <= j < |part| ==> (part[j].1 > part[i].1 <==> j < Rank(part, i) - 1)
  {
    if i > 0 && part[i].1 == part[i - 1].1 { RankIsFirstPeer(part, i - 1); }
  }

  lemma {:induction false} DistinctPrefix(part: seq<(Uuid, nat)>, n: nat) returns (users: set<Uuid>)
    requires n <= |part| && (forall i, j :: 0 <= i < j < |part| ==> part[i].0 != part[j].0)
    ensures |users| == n
    ensures forall u :: u in users <==> exists i :: 0 <= i < n && part[i].0 == u
  {
    users := {};
    if n > 0 {
      var rest := DistinctPrefix(part, n - 1);
      assert part[n - 1].0 !in rest;
      users := rest + {part[n - 1].0};
    }
  }

  /** The rank is one more than the number of contributors strictly ahead. */
  lemma RankCountsAhead(part: seq<(Uuid, nat)>, tasks: seq<Task>, team: Uuid, since: int, i: nat)
    requires IsPartition(part, tasks, team, since) && i < |part|
    ensures Rank(part, i) == |Ahead(tasks, team, since, part[i].0)| + 1
  {
    RankIsFirstPeer(part, i);
    var users := DistinctPrefix(part, Rank(part, i) - 1);
    var ahead := Ahead(tasks, team, since, part[i].0);
    forall u: Uuid
      ensures u in users <==> u in ahead
    {
      if u in ahead {
        var j :| 0 <= j < |part| && part[j].0 == u;
        assert j < Rank(part, i) - 1;
      }
    }
    assert users == ahead;
  }

  /** The rows of the team that survive rank_in_team <= 3. */
  function TopThree(part: seq<(Uuid, nat)>, n: nat): seq<(Uuid, nat, nat)>
    requires n <= |part|
  {
    if n == 0 then []
    else TopThree(part, n - 1) + (if Rank(part, n - 1) <= 3 then [(part[n - 1].0, part[n - 1].1, Rank(part, n - 1))] else [])
  }

  lemma {:induction false} TopThreeRows(part: seq<(Uuid, nat)>, n: nat)
    requires n <= |part|
    ensures forall r :: r in TopThree(part, n) <==>
      exists i :: 0 <= i < n && Rank(part, i) <= 3 && r == (part[i].0, part[i].1, Rank(part, i))
  {
    if n > 0 { TopThreeRows(part, n - 1); }
  }

  /**
   * Who is returned: exactly the users who created a task in the window and have fewer than three users
   * of the team strictly ahead, each with the number of tasks and the rank that follows from it.
   */
  lemma TopThreeMeaning(part: seq<(Uuid, nat)>, tasks: seq<Task>, team: Uuid, since: int, user: Uuid, count: nat, rank: nat)
    requires IsPartition(part, tasks, team, since)
    ensures (user, count, rank) in TopThree(part, |part|) <==>
      (user in Contributors(tasks, team, since) && |Ahead(tasks, team, since, user)| < 3
      && count == Created(tasks, team, since, user) && rank == |Ahead(tasks, team, since, user)| + 1)
  {
    TopThreeRows(part, |part|);
    forall i | 0 <= i < |part|
      ensures Rank(part, i) == |Ahead(tasks, team, since, part[i].0)| + 1
    {
      RankCountsAhead(part, tasks, team, since, i);
    }
  }

  lemma {:induction false} TopThreeSize(part: seq<(Uuid, nat)>, n: nat)
    requires n <= |part| && (forall j, k :: 0 <= j < k < |part| ==> part[j].1 >= part[k].1)
    ensures |TopThree(part, n)| >= if n < 3 then n else 3
  {
    if n > 0 {
      TopThreeSize(part, n - 1);
      RankIsFirstPeer(part, n - 1);
    }
  }

  /** A team with n contributors gets at least min(3, n) rows, and one of them has rank 1. */
  lemma TopThreeIsNotShort(part: seq<(Uuid, nat)>, tasks: seq<Task>, team: Uuid, since: int)
    requires IsPartition(part, tasks, team, since)
    ensures var n := |Contributors(tasks, team, since)|;
      |TopThree(part, |part|)| >= (if n < 3 then n else 3)
      && (n > 0 ==> exists r :: r in TopThree(part, |part|) && r.2 == 1)
  {
    var users := DistinctPrefix(part, |part|);
    assert users == Contributors(tasks, team, since);
    TopThreeSize(part, |part|);
    TopThreeRows(part, |part|);
    if |part| > 0 {
      assert Rank(part, 0) == 1;
      assert (part[0].0, part[0].1, 1) in TopThree(part, |part|);
    }
  }

  /** The places of the user's tasks of the team created at most thirty days of 86 400 000 ms before now. */
  function CreatedRows(tasks: seq<Task>, team: Uuid, user: Uuid, now: int): set<int> {
    set i | 0 <= i < |tasks| && tasks[i].team == team && tasks[i].createdBy == user && now - tasks[i].createdAt <= 2_592_000_000
  }

  /** The users who created strictly more tasks of the team in that time. */
  function Busier(tasks: seq<Task>, team: Uuid, user: Uuid, now: int): set<Uuid> {
    set t | t in tasks && |CreatedRows(tasks, team, t.createdBy, now)| > |CreatedRows(tasks, team, user, now)| :: t.createdBy
  }

  lemma {:induction false} CreatedAppend(a: seq<Task>, b: seq<Task>, team: Uuid, since: int, user: Uuid)
    ensures Created(a + b, team, since, user) == Created(a, team, since, user) + Created(b, team, since, user)
  {
    if a == [] {
      assert a + b == b;
    } else {
      assert (a + b)[1..] == a[1..] + b;
      CreatedAppend(a[1..], b, team, since, user);
    }
  }

  lemma CreatedRowsStep(tasks: seq<Task>, team: Uuid, user: Uuid, now: int)
    requires tasks != []
    ensures var n := |tasks| - 1;
      CreatedRows(tasks, team, user, now) ==
        CreatedRows(tasks[..n], team, user, now) + if Created([tasks[n]], team, now - MONTH, user) == 1 then {n} else {}
  {
    var n := |tasks| - 1;
    assert [tasks[n]][1..] == [];
    var here := tasks[n].team == team && tasks[n].createdBy == user && now - tasks[n].createdAt <= 2_592_000_000;
    assert Created([tasks[n]], team, now - MONTH, user) == if here then 1 else 0;
    forall i
      ensures i in CreatedRows(tasks, team, user, now) <==> i in CreatedRows(tasks[..n], team, user, now) || (i == n && here)
    {
      if 0 <= i < n { assert tasks[..n][i] == tasks[i]; }
    }
  }

  lemma {:induction false} CreatedRowsCount(tasks: seq<Task>, team: Uuid, user: Uuid, now: int)
    ensures |CreatedRows(tasks, team, user, now)| == Created(tasks, team, now - MONTH, user)
    decreases |tasks|
  {
    if tasks != [] {
      var n := |tasks| - 1;
      assert tasks == tasks[..n] + [tasks[n]];
      assert [tasks[n]][1..] == [];
      CreatedRowsCount(tasks[..n], team, user, now);
      CreatedAppend(tasks[..n], [tasks[n]], team, now - MONTH, user);
      CreatedRowsStep(tasks, team, user, now);
    }
  }

  lemma {:induction false} ContributorsCreated(tasks: seq<Task>, team: Uuid, since: int, user: Uuid)
    ensures user in Contributors(tasks, team, since) <==> Created(tasks, team, since, user) >= 1
  {
    if tasks != [] {
      ContributorsCreated(tasks[1..], team, since, user);
      assert tasks == [tasks[0]] + tasks[1..];
    }
  }

  lemma BusierAreAhead(tasks: seq<Task>, team: Uuid, user: Uuid, now: int)
    ensures Busier(tasks, team, user, now) == Ahead(tasks, team, now - MONTH, user)
  {
    forall v: Uuid
      ensures v in Busier(tasks, team, user, now) <==> v in Ahead(tasks, team, now - MONTH, user)
    {
      CreatedRowsCount(tasks, team, user, now);
      CreatedRowsCount(tasks, team, v, now);
      ContributorsCreated(tasks, team, now - MONTH, v);
    }
  }

  /**
   * The report, in terms of the task table: a row for each user who created a task of the team in the last thirty
   * days and whom fewer than three users beat, with the number of those tasks and one more than the users ahead.
   */
  lemma TopContributorsMeaning(part: seq<(Uuid, nat)>, tasks: seq<Task>, team: Uuid, now: int, user: Uuid, count: nat, rank: nat)
    requires IsPartition(part, tasks, team, now - MONTH)
    ensures (user, count, rank) in TopThree(part, |part|) <==>
      (count == |CreatedRows(tasks, team, user, now)| >= 1
      && rank == |Busier(tasks, team, user, now)| + 1 <= 3)
  {
    TopThreeMeaning(part, tasks, team, now - MONTH, user, count, rank);
    CreatedRowsCount(tasks, team, user, now);
    ContributorsCreated(tasks, team, now - MONTH, user);
    BusierAreAhead(tasks, team, user, now);
  }

  lemma {:induction false} FewestOf(users: set<Uuid>, tasks: seq<Task>, team: Uuid, since: int) returns (u: Uuid)
    requires users != {}
    ensures u in users && forall v :: v in users ==> Created(tasks, team, since, u) <= Created(tasks, team, since, v)
    decreases |users|
  {
    u :| u in users;
    if users != {u} {
      var v := FewestOf(users - {u}, tasks, team, since);
      if Created(tasks, team, since, v) < Created(tasks, team, since, u) { u := v; }
    }
  }

  ghost predicate Listed(part: seq<(Uuid, nat)>, u: Uuid) {
    exists i :: 0 <= i < |part| && part[i].0 == u
  }

  lemma ListedInExtension(part: seq<(Uuid, nat)>, last: (Uuid, nat), u: Uuid)
    ensures Listed(part + [last], u) <==> Listed(part, u) || u == last.0
  {
    var all := part + [last];
    assert all[|part|] == last;
    if Listed(part, u) {
      var i :| 0 <= i < |part| && part[i].0 == u;
      assert all[i].0 == u;
    }
  }

  lemma {:induction false} Arrange(users: set<Uuid>, tasks: seq<Task>, team: Uuid, since: int) returns (part: seq<(Uuid, nat)>)
    ensures forall i, j :: 0 <= i < j < |part| ==> part[i].0 != part[j].0 && part[i].1 >= part[j].1
    ensures forall u :: u in users <==> Listed(part, u)
    ensures forall i :: 0 <= i < |part| ==> part[i].0 in users && part[i].1 == Created(tasks, team, since, part[i].0)
    decreases |users|
  {
    part := [];
    if users != {} {
      var u := FewestOf(users, tasks, team, since);
      var rest := Arrange(users - {u}, tasks, team, since);
      var last := (u, Created(tasks, team, since, u));
      part := rest + [last];
      forall v: Uuid
        ensures v in users <==> Listed(part, v)
      {
        ListedInExtension(rest, last, v);
        assert v in users - {u} <==> Listed(rest, v);
      }
    }
  }

  /** The groups of every team can be put in such an order, so the results above are about something. */
  lemma PartitionExists(tasks: seq<Task>, team: Uuid, since: int) returns (part: seq<(Uuid, nat)>)
    ensures IsPartition(part, tasks, team, since)
  {
    part := Arrange(Contributors(tasks, team, since), tasks, team, since);
    assert forall u :: u in Contributors(tasks, team, since) <==> Listed(part, u);
  }

  // ---- orphan tasks ----

  predicate IsOrphan(members: set<(Uuid, Uuid)>, t: Task) {
    t.assignee.Some? && (t.team, t.assignee.value) !in members
  }

  function OrphanTasks(members: set<(Uuid, Uuid)>, tasks: seq<Task>): seq<Task> {
    if tasks == [] then []
    else (if IsOrphan(members, tasks[0]) then [tasks[0]] else []) + OrphanTasks(members, tasks[1..])
  }

  /** The report holds each task whose assignee has no member row in the task's team, once, and no other. */
  lemma {:induction false} OrphanTasksExactly(members: set<(Uuid, Uuid)>, tasks: seq<Task>)
    ensures forall t :: t in OrphanTasks(members, tasks) <==> t in tasks && t.assignee.Some? && (t.team, t.assignee.value) !in members
    ensures forall t :: multiset(OrphanTasks(members, tasks))[t] <= multiset(tasks)[t]
  {
    if tasks != [] {
      OrphanTasksExactly(members, tasks[1..]);
      assert tasks == [tasks[0]] + tasks[1..];
    }
  }
}
