/**
 * The slack_usergroup data source: looks a user group up by ID in a live list
 * of all groups, with no cache.
 */
module DataUserGroup {
  import opened Options
  import opened SlackApi
  import opened Lifecycle
  import UserGroup

  /** The data source's data: the requested ID, and what the lookup fills in. */
  datatype DataUserGroupData = DataUserGroupData(
    id: string,
    usergroupId: string,
    handle: string,
    name: string,
    description: string,
    autoType: string,
    teamId: string)

  /** The ID and every attribute the data source shares with a group hold the group's values. */
  predicate Mirrors(d: DataUserGroupData, g: Group) {
    && d.id == g.id
    && d.handle == g.handle
    && d.name == g.name
    && d.description == g.description
    && d.autoType == g.autoType
    && d.teamId == g.teamId
  }

  /**
   * Lists all groups (disabled ones included, members and counts left out)
   * and copies the first group with the requested ID; "could not be found"
   * when there is none.
   */
  function Read(d: DataUserGroupData, r: Remote, env: Env): (run: Run<DataUserGroupData>)
    ensures run.calls == [GetUserGroups(false, false, true)] && run.remote == r
    ensures GetUserGroups(false, false, true) in env.faults ==>
      run.diag == Fatal(ApiError(env.faults[GetUserGroups(false, false, true)])) && run.state == d
    ensures GetUserGroups(false, false, true) !in env.faults ==>
      && (run.diag.Ok? <==> IndexOfId(r.groups, d.usergroupId).Some?)
      && (run.diag.Ok? ==>
            && run.state.id == d.usergroupId
            && run.state.usergroupId == d.usergroupId
            && Mirrors(run.state, r.groups[IndexOfId(r.groups, d.usergroupId).value]))
      && (run.diag.Fatal? ==> run.diag.error == CouldNotBeFound(d.usergroupId) && run.state == d)
  {
    var s := UsergroupsList(r, env, false, false, true);
    match s.reply
    case Failed(_) => Abort(d, s)
    case Done(groups) =>
      ListingKeepsAll(r.groups, false);
      ListingFindsSame(r.groups, false, d.usergroupId);
      match IndexOfId(groups, d.usergroupId)
      case Some(i) =>
        var g := groups[i];
        Run(Ok, d.(id := g.id, handle := g.handle, name := g.name, description := g.description,
                   autoType := g.autoType, teamId := g.teamId), s.remote, [s.call])
      case None => Run(Fatal(CouldNotBeFound(d.usergroupId)), d, s.remote, [s.call])
  }

  /**
   * The data source and the resource read from an empty cache issue the same
   * single list call and find the same group: both succeed or both fail, and on
   * success they report the same ID and attributes.
   */
  lemma AgreesWithResourceRead(d: DataUserGroupData, u: UserGroup.UserGroupData, r: Remote, env: Env)
    requires u.id == d.usergroupId
    ensures var data := Read(d, r, env);
      var res := UserGroup.Read(u, r, env, None).run;
      && data.calls == res.calls
      && (data.diag.Ok? <==> res.diag.Ok?)
      && (data.diag.Ok? ==>
            var s := res.state;
            && data.state.id == s.id && data.state.handle == s.handle && data.state.name == s.name
            && data.state.description == s.description && data.state.autoType == s.autoType
            && data.state.teamId == s.teamId)
  {
  }
}
