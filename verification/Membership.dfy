/** Who belongs to a team, over every run: ownership, invitations, and tasks that always have a member to do them. */
module Membership {
  import opened Text
  import opened Domain
  import opened TaskQuery
  import opened Audit
  import opened Analytics
  import opened World

  /** What holds of teams and members in every reachable state. */
  ghost predicate Settled(w: World) {
    && (forall t, u :: (t, u) in w.members ==> t in w.teams && u in w.users)
    && (forall t, u :: (t, u) in w.members ==> w.members[(t, u)] != Admin)
    && (forall t, u :: (t, u) in w.members && w.members[(t, u)] == Owner ==> u == w.teams[t].createdBy)
    && (forall t :: t in w.teams ==> (t, w.teams[t].createdBy) in w.members)
  }

  /** Only inviting and creating teams touches teams and members. */
  lemma OthersKeepMembers(w: World, op: Op)
    requires !op.Invite? && !op.CreateTeam?
    ensures Step(w, op).0.members == w.members && Step(w, op).0.teams == w.teams
  {
  }

  lemma StepKeepsSettled(w: World, op: Op)
    requires Settled(w)
    ensures Settled(Step(w, op).0)
  {
    match op {
      case Invite(_, _, _, _) =>
      case CreateTeam(_, _, _, _, _) =>
      case _ => OthersKeepMembers(w, op);
    }
  }

  /** A request never removes a member or a team, and never changes who created a team. */
  lemma StepOnlyAdds(w: World, op: Op)
    ensures w.members.Keys <= Step(w, op).0.members.Keys
    ensures forall t :: t in w.teams ==> t in Step(w, op).0.teams && Step(w, op).0.teams[t] == w.teams[t]
  {
    match op {
      case Invite(_, _, _, _) =>
      case CreateTeam(_, _, _, _, _) =>
      case _ => OthersKeepMembers(w, op);
    }
  }

  /**
   * In every reachable state a team has at most one owner and that is its creator, nobody is admin, and
   * the creator is a member.
   */
  lemma {:induction false} RunKeepsSettled(w: World, ops: seq<Op>)
    requires Settled(w)
    ensures Settled(Run(w, ops))
    ensures w.members.Keys <= Run(w, ops).members.Keys
    ensures forall t :: t in w.teams ==> t in Run(w, ops).teams && Run(w, ops).teams[t] == w.teams[t]
    decreases |ops|
  {
    if ops != [] {
      StepKeepsSettled(w, ops[0]);
      StepOnlyAdds(w, ops[0]);
      RunKeepsSettled(Step(w, ops[0]).0, ops[1..]);
    }
  }

  // ---- how a member came in, and how an owner is lost ----

  /** The i-th request of the run is a successful invitation of the user into the team. */
  predicate InvitedAt(ops: seq<Op>, i: nat, team: Uuid, user: Uuid)
    requires i < |ops|
  {
    ops[i].Invite? && ops[i].team == team && ops[i].target == user
    && Step(Run(INITIAL, ops[..i]), ops[i]).1 == InviteResponse(Ok(true))
  }

  /** A successful invitation was made by the creator of the team while still its owner. */
  lemma InviterIsOwner(w: World, op: Op)
    requires Settled(w) && op.Invite? && Step(w, op).1 == InviteResponse(Ok(true))
    ensures op.team in w.teams && op.caller == w.teams[op.team].createdBy
    ensures (op.team, op.caller) in w.members && w.members[(op.team, op.caller)] == Owner
    ensures Step(w, op).0 == w.(members := w.members[(op.team, op.target) := Member])
  {
  }

  /** Only a new team or a successful invitation changes any role. */
  lemma RolesChangeOnlyBy(w: World, op: Op, team: Uuid, user: Uuid)
    requires Settled(w) && team in w.teams
    ensures var v := Step(w, op).0;
      var invited := op.Invite? && op.team == team && op.target == user && Step(w, op).1 == InviteResponse(Ok(true));
      && (invited ==> (team, user) in v.members && v.members[(team, user)] == Member)
      && (!invited ==> ((team, user) in v.members <==> (team, user) in w.members))
      && (!invited && (team, user) in w.members ==> v.members[(team, user)] == w.members[(team, user)])
  {
    match op {
      case Invite(_, _, _, _) =>
      case CreateTeam(_, _, _, _, _) =>
      case _ => OthersKeepMembers(w, op);
    }
  }

  lemma NewTeamHasOwner(w: World, op: Op, team: Uuid)
    requires Settled(w) && team !in w.teams && team in Step(w, op).0.teams
    ensures var v := Step(w, op).0;
      var c := v.teams[team].createdBy;
      (team, c) in v.members && v.members[(team, c)] == Owner
      && (forall u :: (team, u) in v.members ==> u == c)
      && op.CreateTeam?
  {
    match op {
      case Invite(_, _, _, _) =>
      case UpdateTask(_, _, _, _, _, _) =>
      case _ =>
    }
  }

  lemma PrefixInvitations(ops: seq<Op>, op: Op, i: nat, team: Uuid, user: Uuid)
    requires i < |ops|
    ensures InvitedAt(ops + [op], i, team, user) <==> InvitedAt(ops, i, team, user)
  {
    assert (ops + [op])[..i] == ops[..i];
  }

  /** What holds of every reachable state. */
  lemma ReachableSettled(ops: seq<Op>)
    ensures Settled(Run(INITIAL, ops))
  {
    RunKeepsSettled(INITIAL, ops);
  }

  ghost predicate EverInvited(ops: seq<Op>, team: Uuid, user: Uuid) {
    exists i :: 0 <= i < |ops| && InvitedAt(ops, i, team, user)
  }

  lemma EverInvitedStep(ops: seq<Op>, team: Uuid, user: Uuid)
    requires ops != []
    ensures var n := |ops| - 1;
      EverInvited(ops, team, user) <==> EverInvited(ops[..n], team, user) || InvitedAt(ops, n, team, user)
  {
    var n := |ops| - 1;
    assert ops == ops[..n] + [ops[n]];
    forall i | 0 <= i < n
      ensures InvitedAt(ops, i, team, user) <==> InvitedAt(ops[..n], i, team, user)
    {
      PrefixInvitations(ops[..n], ops[n], i, team, user);
    }
  }

  /** In a reachable state the members of a team are its creator and everyone ever invited into it. */
  lemma {:induction false} MembersAreInvited(ops: seq<Op>, team: Uuid, user: Uuid)
    requires team in Run(INITIAL, ops).teams
    ensures (team, user) in Run(INITIAL, ops).members <==>
      user == Run(INITIAL, ops).teams[team].createdBy || EverInvited(ops, team, user)
    decreases |ops|
  {
    if ops != [] {
      var n := |ops| - 1;
      var w := Run(INITIAL, ops[..n]);
      RunLast(INITIAL, ops, n);
      ReachableSettled(ops[..n]);
      EverInvitedStep(ops, team, user);
      if team in w.teams {
        MembersAreInvited(ops[..n], team, user);
        RolesChangeOnlyBy(w, ops[n], team, user);
        StepOnlyAdds(w, ops[n]);
      } else {
        NewTeamHasOwner(w, ops[n], team);
        NotInvitedBefore(ops[..n], team, user);
      }
    }
  }

  /** Nobody was invited into a team that does not exist. */
  lemma NotInvitedBefore(ops: seq<Op>, team: Uuid, user: Uuid)
    requires team !in Run(INITIAL, ops).teams
    ensures !EverInvited(ops, team, user)
  {
    forall i | 0 <= i < |ops|
      ensures !InvitedAt(ops, i, team, user)
    {
      var w := Run(INITIAL, ops[..i]);
      ReachableSettled(ops[..i]);
      RunSplit(INITIAL, ops, i);
      RunKeepsSettled(w, ops[i..]);
    }
  }

  lemma {:induction false} RunSplit(w: World, ops: seq<Op>, i: nat)
    requires i <= |ops|
    ensures Run(w, ops) == Run(Run(w, ops[..i]), ops[i..])
    decreases i
  {
    if i == 0 {
      assert ops[0..] == ops;
    } else {
      assert ops[..i][0] == ops[0] && ops[..i][1..] == ops[1..][..i - 1] && ops[i..] == ops[1..][i - 1..];
      RunSplit(Step(w, ops[0]).0, ops[1..], i - 1);
    }
  }

  /** A team still has its owner exactly as long as the owner has never successfully invited himself. */
  lemma {:induction false} OwnerRemainsIff(ops: seq<Op>, team: Uuid)
    requires team in Run(INITIAL, ops).teams
    ensures var w := Run(INITIAL, ops);
      var c := w.teams[team].createdBy;
      (team, c) in w.members && (w.members[(team, c)] == Owner <==> !EverInvited(ops, team, c))
    decreases |ops|
  {
    if ops != [] {
      var n := |ops| - 1;
      var w := Run(INITIAL, ops[..n]);
      RunLast(INITIAL, ops, n);
      ReachableSettled(ops[..n]);
      StepOnlyAdds(w, ops[n]);
      var c := Run(INITIAL, ops).teams[team].createdBy;
      EverInvitedStep(ops, team, c);
      if team in w.teams {
        OwnerRemainsIff(ops[..n], team);
        RolesChangeOnlyBy(w, ops[n], team, c);
      } else {
        NewTeamHasOwner(w, ops[n], team);
        NotInvitedBefore(ops[..n], team, c);
      }
    }
  }

  ghost predicate HasOwner(w: World, team: Uuid) {
    exists u :: (team, u) in w.members && w.members[(team, u)] == Owner
  }

  /** A team without an owner is closed for good: no run of requests changes its membership or a role in it. */
  lemma {:induction false} OwnerlessTeamIsFrozen(w: World, ops: seq<Op>, team: Uuid, user: Uuid)
    requires Settled(w) && team in w.teams && !HasOwner(w, team)
    ensures (team, user) in Run(w, ops).members <==> (team, user) in w.members
    ensures (team, user) in w.members ==> Run(w, ops).members[(team, user)] == w.members[(team, user)]
    ensures !HasOwner(Run(w, ops), team)
    decreases |ops|
  {
    if ops != [] {
      var v := Step(w, ops[0]).0;
      StepKeepsSettled(w, ops[0]);
      StepOnlyAdds(w, ops[0]);
      forall u: Uuid
        ensures (team, u) in v.members <==> (team, u) in w.members
        ensures (team, u) in w.members ==> v.members[(team, u)] == w.members[(team, u)]
      {
        RolesChangeOnlyBy(w, ops[0], team, u);
        if ops[0].Invite? && ops[0].team == team && Step(w, ops[0]).1 == InviteResponse(Ok(true)) {
          InviterIsOwner(w, ops[0]);
        }
      }
      OwnerlessTeamIsFrozen(v, ops[1..], team, user);
    }
  }

  /** A registered outsider can be brought into a team exactly when the team still has its owner. */
  lemma TeamGrowsIff(w: World, team: Uuid, user: Uuid)
    requires Settled(w) && team in w.teams && user in w.users && (team, user) !in w.members
    ensures HasOwner(w, team) <==> exists op :: (team, user) in Step(w, op).0.members
  {
    if HasOwner(w, team) {
      var c :| (team, c) in w.members && w.members[(team, c)] == Owner;
      var op := Invite(c, team, user, Faults(false, false, false, false, false, false));
      assert (team, user) in Step(w, op).0.members;
    } else {
      forall op
        ensures (team, user) !in Step(w, op).0.members
      {
        assert Run(w, [op]) == Step(w, op).0 by { assert [op][1..] == []; }
        OwnerlessTeamIsFrozen(w, [op], team, user);
      }
    }
  }

  // ---- tasks and their people ----

  /** Creator and assignee of every task belong to its team. */
  ghost predicate Staffed(w: World) {
    forall t :: t in w.tasks ==>
      (t.team, t.createdBy) in w.members && (t.assignee.Some? ==> (t.team, t.assignee.value) in w.members)
  }

  /** Each row after an update comes from one before it, with the same team and creator and no outside assignee. */
  lemma RowBeforeUpdate(w: World, op: Op, s: Task) returns (o: Task)
    requires UniqueIds(w.tasks) && op.UpdateTask? && s in Step(w, op).0.tasks
    ensures Step(w, op).0.members == w.members
    ensures o in w.tasks && o.id == s.id && o.team == s.team && o.createdBy == s.createdBy
    ensures s.assignee == o.assignee || (s.assignee.Some? && (s.team, s.assignee.value) in w.members)
  {
    var found := Find(w.tasks, op.task);
    if Step(w, op).0 == w || found.None? {
      o := s;
    } else {
      o := OverwrittenFrom(w.tasks, Applied(found.value, op.update).(updatedAt := op.now), s);
      FoundIsOnly(w.tasks, op.task, found.value);
    }
  }

  lemma UpdateKeepsStaffed(w: World, op: Op)
    requires Staffed(w) && UniqueIds(w.tasks) && op.UpdateTask?
    ensures Staffed(Step(w, op).0)
  {
    var w' := Step(w, op).0;
    forall s | s in w'.tasks
      ensures (s.team, s.createdBy) in w'.members && (s.assignee.Some? ==> (s.team, s.assignee.value) in w'.members)
    {
      var o := RowBeforeUpdate(w, op, s);
    }
  }

  lemma StepKeepsStaffed(w: World, op: Op)
    requires Staffed(w) && UniqueIds(w.tasks)
    ensures Staffed(Step(w, op).0)
  {
    StepOnlyAdds(w, op);
    match op {
      case UpdateTask(_, _, _, _, _, _) => UpdateKeepsStaffed(w, op);
      case CreateTask(_, _, _, _, _, _) =>
      case _ =>
    }
  }

  lemma {:induction false} RunKeepsStaffed(w: World, ops: seq<Op>)
    requires Staffed(w) && UniqueIds(w.tasks)
    ensures Staffed(Run(w, ops))
    decreases |ops|
  {
    if ops != [] {
      StepKeepsStaffed(w, ops[0]);
      UniqueIdsStep(w, ops[0]);
      RunKeepsStaffed(Step(w, ops[0]).0, ops[1..]);
    }
  }

  lemma {:induction false} NoOrphansListed(members: set<(Uuid, Uuid)>, tasks: seq<Task>)
    requires forall t :: t in tasks ==> !IsOrphan(members, t)
    ensures OrphanTasks(members, tasks) == []
  {
    if tasks != [] {
      assert tasks[0] in tasks;
      NoOrphansListed(members, tasks[1..]);
    }
  }

  /** The orphan query is empty in every reachable state. */
  lemma NoOrphansReachable(ops: seq<Op>)
    ensures Staffed(Run(INITIAL, ops))
    ensures OrphanTasks(Run(INITIAL, ops).members.Keys, Run(INITIAL, ops).tasks) == []
  {
    RunKeepsStaffed(INITIAL, ops);
    NoOrphansListed(Run(INITIAL, ops).members.Keys, Run(INITIAL, ops).tasks);
  }

  lemma UpdateMakesNoOrphan(w: World, op: Op, t: Task)
    requires UniqueIds(w.tasks) && op.UpdateTask?
    requires t in OrphanTasks(Step(w, op).0.members.Keys, Step(w, op).0.tasks)
    ensures exists o :: o in OrphanTasks(w.members.Keys, w.tasks) && o.id == t.id
  {
    OrphanTasksExactly(Step(w, op).0.members.Keys, Step(w, op).0.tasks);
    OrphanTasksExactly(w.members.Keys, w.tasks);
    var o := RowBeforeUpdate(w, op, t);
    assert o in OrphanTasks(w.members.Keys, w.tasks);
  }

  /** Even when members were removed behind the service's back, no request adds an orphan. */
  lemma StepMakesNoOrphan(w: World, op: Op, t: Task)
    requires UniqueIds(w.tasks)
    requires t in OrphanTasks(Step(w, op).0.members.Keys, Step(w, op).0.tasks)
    ensures exists o :: o in OrphanTasks(w.members.Keys, w.tasks) && o.id == t.id
  {
    if op.UpdateTask? {
      UpdateMakesNoOrphan(w, op, t);
    } else {
      var w' := Step(w, op).0;
      StepOnlyAdds(w, op);
      OrphanTasksExactly(w'.members.Keys, w'.tasks);
      OrphanTasksExactly(w.members.Keys, w.tasks);
      assert t in w.tasks;
    }
  }
}
