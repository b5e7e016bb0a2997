/**
 * The slack_usergroup_members resource: the member list of one user group,
 * written as a whole, identified by the group's own ID, and "destroyed" by
 * disabling the group.
 */
module UserGroupMembers {
  import opened Options
  import opened SlackApi
  import opened Lifecycle
  import UserList

  /**
   * The resource data of one slack_usergroup_members: its ID, the declared
   * group, and the member IDs in the order the SDK lists the set.
   */
  datatype MembersData = MembersData(id: string, usergroupId: string, members: seq<string>)

  /** The declared group is the one the resource was created for. */
  predicate IdentityHolds(d: MembersData) {
    d.usergroupId == d.id
  }

  /** The import hook: the imported ID becomes the declared group. */
  function Import(d: MembersData): (d': MembersData)
    ensures IdentityHolds(d')
    ensures d'.id == d.id && d'.members == d.members
  {
    d.(usergroupId := d.id)
  }

  /** configureSlackUserGroupMembers: take the ID and the members from the group. */
  function Configure(d: MembersData, g: Group): (d': MembersData)
    ensures d'.id == g.id && d'.members == g.users && d'.usergroupId == d.usergroupId
  {
    d.(id := g.id, members := g.users)
  }

  /** The membership call for the declared group with every declared member, comma-joined. */
  function ReplaceCall(d: MembersData): Call {
    UpdateUserGroupMembers(d.usergroupId, UserList.Join(d.members))
  }

  /** The one error the identity check reports. */
  function IdChanged(d: MembersData, r: Remote): Run<MembersData> {
    Run(Fatal(UserGroupIdChanged(d.id)), d, r, [])
  }

  /**
   * The replacement call goes through: the group exists and is enabled, the
   * joined list is not empty, and the call is not faulted.
   */
  predicate Writable(d: MembersData, r: Remote, env: Env) {
    && IndexOfId(r.groups, d.usergroupId).Some?
    && r.groups[IndexOfId(r.groups, d.usergroupId).value].enabled
    && UserList.Join(d.members) != ""
    && ReplaceCall(d) !in env.faults
  }

  /** The group's members, once the replacement call went through. */
  function Replaced(d: MembersData, r: Remote, env: Env): (run: Run<MembersData>)
    ensures run.calls == [ReplaceCall(d)]
    ensures run.diag.Ok? <==> Writable(d, r, env)
    ensures |run.remote.groups| == |r.groups| && run.remote.channels == r.channels
    ensures run.diag.Ok? ==>
      var i := IndexOfId(r.groups, d.usergroupId).value;
      && run.remote.groups == r.groups[i := r.groups[i].(users := UserList.Split(UserList.Join(d.members)))]
      && run.state.id == d.usergroupId
      && run.state.members == run.remote.groups[i].users
    ensures run.diag.Fatal? ==> run.state == d && run.remote == r && run.diag.error.ApiError?
  {
    var s := UsergroupsUsersUpdate(r, env, d.usergroupId, UserList.Join(d.members));
    match s.reply
    case Failed(_) => Abort(d, s)
    case Done(g) => Run(Ok, Configure(d, g), s.remote, [s.call])
  }

  /**
   * Sends the whole declared member list as one replacement and takes the ID
   * and the members from the answer.
   */
  function Create(d: MembersData, r: Remote, env: Env): (run: Run<MembersData>)
    ensures run.calls == [UpdateUserGroupMembers(d.usergroupId, UserList.Join(d.members))]
    ensures run.diag.Ok? <==>
      && IndexOfId(r.groups, d.usergroupId).Some?
      && r.groups[IndexOfId(r.groups, d.usergroupId).value].enabled
      && UserList.Join(d.members) != ""
      && ReplaceCall(d) !in env.faults
    ensures run.diag.Ok? ==>
      var i := IndexOfId(r.groups, d.usergroupId).value;
      && i < |run.remote.groups|
      && IdentityHolds(run.state)
      && run.state.members == run.remote.groups[i].users == UserList.Split(UserList.Join(d.members))
    ensures run.diag.Fatal? ==> run.state == d && run.remote == r
  {
    Replaced(d, r, env)
  }

  /** After the identity check, overwrites the members with those the workspace lists. */
  function Read(d: MembersData, r: Remote, env: Env): (run: Run<MembersData>)
    ensures !IdentityHolds(d) ==> run == Run(Fatal(UserGroupIdChanged(d.id)), d, r, [])
    ensures IdentityHolds(d) ==> run.calls == [GetUserGroupMembers(d.id)]
    ensures run.remote == r
    ensures run.diag.Ok? <==>
      IdentityHolds(d) && IndexOfId(r.groups, d.id).Some? && GetUserGroupMembers(d.id) !in env.faults
    ensures run.diag.Ok? ==>
      run.state == d.(members := r.groups[IndexOfId(r.groups, d.id).value].users)
    ensures run.diag.Fatal? ==> run.state == d
  {
    if !IdentityHolds(d) then IdChanged(d, r)
    else
      var s := UsergroupsUsersList(r, env, d.usergroupId);
      match s.reply
      case Failed(_) => Abort(d, s)
      case Done(members) => Run(Ok, d.(members := members), s.remote, [s.call])
  }

  /**
   * Enables the group (swallowing "already_enabled") and then replaces its
   * members with the declared ones. This is the create the resource evidently
   * intends: a group its own destroy left disabled can take members again.
   */
  function CreateEnabling(d: MembersData, r: Remote, env: Env): (run: Run<MembersData>)
    ensures |run.calls| >= 1 && run.calls <= [EnableUserGroup(d.usergroupId), ReplaceCall(d)]
    ensures !Tolerated(UsergroupsEnable(r, env, d.usergroupId).reply, AlreadyEnabled) ==>
      run.calls == [EnableUserGroup(d.usergroupId)] && run.diag.Fatal? && run.remote == r
    ensures run.diag.Ok? <==>
      && Tolerated(UsergroupsEnable(r, env, d.usergroupId).reply, AlreadyEnabled)
      && UserList.Join(d.members) != ""
      && ReplaceCall(d) !in env.faults
    ensures run.diag.Ok? ==>
      && run.calls == [EnableUserGroup(d.usergroupId), ReplaceCall(d)]
      && IndexOfId(r.groups, d.usergroupId).Some?
      && IdentityHolds(run.state)
      && var i := IndexOfId(r.groups, d.usergroupId).value;
         && run.remote.groups == r.groups[i := r.groups[i].(enabled := true, users := UserList.Split(UserList.Join(d.members)))]
         && run.state == d.(id := d.usergroupId, members := run.remote.groups[i].users)
    ensures run.diag.Fatal? ==> run.state == d
    ensures run.remote.channels == r.channels
  {
    var s := UsergroupsEnable(r, env, d.usergroupId);
    if !Tolerated(s.reply, AlreadyEnabled) then Abort(d, s)
    else
      var i := IndexOfId(r.groups, d.usergroupId).value;
      IndexOfIdAfterEdit(r.groups, i, s.remote.groups[i], d.usergroupId);
      Then(s.call, Replaced(d, s.remote, env))
  }

  /**
   * After the identity check, enables the group (swallowing "already_enabled")
   * and then replaces its members with the declared ones.
   */
  function Update(d: MembersData, r: Remote, env: Env): (run: Run<MembersData>)
    ensures !IdentityHolds(d) ==> run == Run(Fatal(UserGroupIdChanged(d.id)), d, r, [])
    ensures IdentityHolds(d) ==> |run.calls| >= 1 && run.calls <= [EnableUserGroup(d.id), ReplaceCall(d)]
    ensures IdentityHolds(d) && !Tolerated(UsergroupsEnable(r, env, d.id).reply, AlreadyEnabled) ==>
      run.calls == [EnableUserGroup(d.id)] && run.diag.Fatal? && run.remote == r
    ensures run.diag.Ok? <==>
      && IdentityHolds(d)
      && Tolerated(UsergroupsEnable(r, env, d.id).reply, AlreadyEnabled)
      && UserList.Join(d.members) != ""
      && ReplaceCall(d) !in env.faults
    ensures run.diag.Ok? ==>
      && IdentityHolds(d)
      && run.calls == [EnableUserGroup(d.id), ReplaceCall(d)]
      && IndexOfId(r.groups, d.id).Some?
      && var i := IndexOfId(r.groups, d.id).value;
         && run.remote.groups == r.groups[i := r.groups[i].(enabled := true, users := UserList.Split(UserList.Join(d.members)))]
         && run.state == d.(members := run.remote.groups[i].users)
    ensures run.diag.Fatal? ==> run.state == d
    ensures run.remote.channels == r.channels
  {
    if !IdentityHolds(d) then IdChanged(d, r) else CreateEnabling(d, r, env)
  }

  /**
   * After the identity check, disables the group; no error code is swallowed,
   * so a group already disabled fails the destroy.
   */
  function Delete(d: MembersData, r: Remote, env: Env): (run: Run<MembersData>)
    ensures !IdentityHolds(d) ==> run == Run(Fatal(UserGroupIdChanged(d.id)), d, r, [])
    ensures IdentityHolds(d) ==> run.calls == [DisableUserGroup(d.id)]
    ensures run.diag.Ok? <==> IdentityHolds(d) && UsergroupsDisable(r, env, d.id).reply.Done?
    ensures run.diag.Ok? ==>
      && run.state == d.(id := "")
      && IndexOfId(r.groups, d.id).Some?
      && var i := IndexOfId(r.groups, d.id).value;
         && r.groups[i].enabled
         && run.remote.groups == r.groups[i := r.groups[i].(enabled := false)]
    ensures run.diag.Fatal? ==> run.state == d && run.remote == r
    ensures run.remote.channels == r.channels
  {
    if !IdentityHolds(d) then IdChanged(d, r)
    else
      var s := UsergroupsDisable(r, env, d.usergroupId);
      match s.reply
      case Failed(_) => Abort(d, s)
      case Done(_) => Run(Ok, d.(id := ""), s.remote, [s.call])
  }

  // ---- properties ----

  /**
   * A successful update replaces the members, never merges them: whatever the
   * group held before, it ends enabled with exactly the declared members, and
   * the resource data holds the same list.
   */
  lemma UpdateReplacesMembers(d: MembersData, r: Remote, env: Env)
    requires UserList.AllValid(d.members)
    requires Update(d, r, env).diag.Ok?
    ensures var run := Update(d, r, env);
      var i := IndexOfId(r.groups, d.id).value;
      && run.remote.groups[i].enabled
      && run.remote.groups[i].users == d.members
      && run.state.members == d.members
  {
    UserList.SplitJoin(d.members);
  }

  /** Likewise a successful create leaves the group with exactly the declared members. */
  lemma CreateSetsMembers(d: MembersData, r: Remote, env: Env)
    requires UserList.AllValid(d.members)
    requires Create(d, r, env).diag.Ok?
    ensures var run := Create(d, r, env);
      && run.remote.groups[IndexOfId(r.groups, d.usergroupId).value].users == d.members
      && run.state.members == d.members
  {
    UserList.SplitJoin(d.members);
  }

  /** Declared members {U2, U3} replace a group's {U1, U2}: the group ends with {U2, U3}. */
  lemma ReplaceScenario(env: Env)
    requires env.faults == map[]
    ensures var g := Group("S1", "eng", "Engineering", "", "", "T1", true, ["U1", "U2"]);
      var d := MembersData("S1", "S1", ["U2", "U3"]);
      Update(d, Remote(map[], [g]), env).remote.groups[0].users == ["U2", "U3"]
  {
    var d := MembersData("S1", "S1", ["U2", "U3"]);
    assert UserList.AllValid(d.members);
    var g := Group("S1", "eng", "Engineering", "", "", "T1", true, ["U1", "U2"]);
    UpdateReplacesMembers(d, Remote(map[], [g]), env);
  }

  /**
   * The enable step makes membership writes work on a disabled group: with no
   * fault, an update of an existing group with a non-empty member list succeeds.
   */
  lemma UpdateReenables(d: MembersData, r: Remote, env: Env)
    requires IdentityHolds(d) && IndexOfId(r.groups, d.id).Some?
    requires |d.members| > 0 && UserList.AllValid(d.members)
    requires env.faults == map[]
    ensures Update(d, r, env).diag.Ok?
  {
    var s := UsergroupsEnable(r, env, d.id);
    assert Tolerated(s.reply, AlreadyEnabled);
    UserList.JoinIsEmpty(d.members);
    assert UserList.ValidUserId(d.members[0]);
  }

  /**
   * Without the enable step the write alone fails on a disabled group, which the
   * update with the enable step turns into a success.
   */
  lemma EnableIsNeeded(d: MembersData, r: Remote, env: Env)
    requires IdentityHolds(d) && IndexOfId(r.groups, d.id).Some?
    requires !r.groups[IndexOfId(r.groups, d.id).value].enabled
    requires |d.members| > 0 && UserList.AllValid(d.members)
    requires env.faults == map[]
    ensures Replaced(d, r, env).diag == Fatal(ApiError(SubteamDisabled))
    ensures Update(d, r, env).diag.Ok?
  {
    UpdateReenables(d, r, env);
  }

  /**
   * An empty member list cannot be written: the update enables the group and
   * then fails on the membership call, keeping the resource data.
   */
  lemma UpdateWithoutMembersFails(d: MembersData, r: Remote, env: Env)
    requires IdentityHolds(d) && IndexOfId(r.groups, d.id).Some?
    requires d.members == [] && env.faults == map[]
    ensures var run := Update(d, r, env);
      && run.calls == [EnableUserGroup(d.id), UpdateUserGroupMembers(d.id, "")]
      && run.diag == Fatal(ApiError(NoUsersProvided))
      && run.state == d
  {
    var s := UsergroupsEnable(r, env, d.id);
    assert Tolerated(s.reply, AlreadyEnabled);
    var i := IndexOfId(r.groups, d.id).value;
    IndexOfIdAfterEdit(r.groups, i, s.remote.groups[i], d.id);
  }

  /** A read after a successful update finds exactly the declared members. */
  lemma ReadAfterUpdate(d: MembersData, r: Remote, env: Env, env2: Env)
    requires UserList.AllValid(d.members)
    requires Update(d, r, env).diag.Ok?
    requires GetUserGroupMembers(d.id) !in env2.faults
    ensures var u := Update(d, r, env);
      var rd := Read(u.state, u.remote, env2);
      rd.diag.Ok? && rd.state.members == d.members
  {
    var u := Update(d, r, env);
    var i := IndexOfId(r.groups, d.id).value;
    IndexOfIdAfterEdit(r.groups, i, u.remote.groups[i], d.id);
    UserList.SplitJoin(d.members);
  }

  /** Destroy swallows nothing: on a group already disabled it fails with "already_disabled" and keeps the ID. */
  lemma DeleteOfDisabledGroupFails(d: MembersData, r: Remote, env: Env)
    requires IdentityHolds(d) && IndexOfId(r.groups, d.id).Some?
    requires !r.groups[IndexOfId(r.groups, d.id).value].enabled
    requires DisableUserGroup(d.id) !in env.faults
    ensures Delete(d, r, env) == Run(Fatal(ApiError(AlreadyDisabled)), d, r, [DisableUserGroup(d.id)])
  {
  }

  /**
   * Destroying the members disables the group, so creating them again as the
   * code is written fails: the write reaches a disabled group.
   */
  lemma RecreateAfterDestroyFails(d: MembersData, r: Remote, env: Env)
    requires IdentityHolds(d) && IndexOfId(r.groups, d.id).Some?
    requires r.groups[IndexOfId(r.groups, d.id).value].enabled
    requires env.faults == map[]
    ensures var gone := Delete(d, r, env);
      && gone.diag.Ok?
      && Create(d, gone.remote, env).diag == Fatal(ApiError(SubteamDisabled))
  {
    var gone := Delete(d, r, env);
    var i := IndexOfId(r.groups, d.id).value;
    IndexOfIdAfterEdit(r.groups, i, gone.remote.groups[i], d.id);
  }

  /**
   * With the enable step, creating the members again after a destroy succeeds
   * and leaves the group enabled with exactly the declared members.
   */
  lemma RecreateAfterDestroySucceeds(d: MembersData, r: Remote, env: Env)
    requires IdentityHolds(d) && IndexOfId(r.groups, d.id).Some?
    requires r.groups[IndexOfId(r.groups, d.id).value].enabled
    requires |d.members| > 0 && UserList.AllValid(d.members)
    requires env.faults == map[]
    ensures var gone := Delete(d, r, env);
      var again := CreateEnabling(d, gone.remote, env);
      var i := IndexOfId(r.groups, d.id).value;
      && gone.diag.Ok? && again.diag.Ok?
      && again.remote.groups[i].enabled
      && again.remote.groups[i].users == d.members
      && again.state.members == d.members
  {
    var gone := Delete(d, r, env);
    var i := IndexOfId(r.groups, d.id).value;
    IndexOfIdAfterEdit(r.groups, i, gone.remote.groups[i], d.id);
    var s := UsergroupsEnable(gone.remote, env, d.id);
    assert Tolerated(s.reply, AlreadyEnabled);
    UserList.JoinIsEmpty(d.members);
    assert UserList.ValidUserId(d.members[0]);
    UserList.SplitJoin(d.members);
  }

  /** Right after import the identity check holds, so a read goes on to fetch the members. */
  lemma ImportPassesIdentityCheck(d: MembersData, r: Remote, env: Env)
    ensures Read(Import(d), r, env).calls == [GetUserGroupMembers(d.id)]
    ensures Read(Import(d), r, env).diag != Fatal(UserGroupIdChanged(d.id))
  {
  }
}
