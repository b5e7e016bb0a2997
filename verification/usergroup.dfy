/**
 * The slack_usergroup resource: a user group created and edited as a whole
 * object, found by ID in the (cached) list of all groups, and "destroyed" by
 * disabling it.
 */
module UserGroup {
  import opened Options
  import opened SlackApi
  import opened Lifecycle

  /** The resource data of one slack_usergroup. `teamId` is set only by the workspace. */
  datatype UserGroupData = UserGroupData(
    id: string,
    handle: string,
    name: string,
    description: string,
    autoType: string,
    teamId: string)

  /**
   * The local snapshot of the list call's answer. `None` stands for a cache
   * file that is absent or cannot be read back.
   */
  type Cache = Option<seq<Group>>

  /** The resource data of a user group read, and the cache after it. */
  datatype ReadResult = ReadResult(run: Run<UserGroupData>, cache: Cache)

  /** The group's ID and every attribute the resource shares with it hold the group's values. */
  predicate Mirrors(d: UserGroupData, g: Group) {
    && d.id == g.id
    && d.handle == g.handle
    && d.name == g.name
    && d.description == g.description
    && d.autoType == g.autoType
    && d.teamId == g.teamId
  }

  /** configureSlackUserGroup: take the ID and every attribute from the group. */
  function Configure(d: UserGroupData, g: Group): (d': UserGroupData)
    ensures Mirrors(d', g)
  {
    UserGroupData(g.id, g.handle, g.name, g.description, g.autoType, g.teamId)
  }

  /** The name sent to the workspace: the declared one, or the handle when none is declared. */
  function SentName(d: UserGroupData): (name: string)
    ensures GetOk(d.name) ==> name == d.name
    ensures !GetOk(d.name) ==> name == d.handle
    ensures GetOk(d.handle) ==> GetOk(name)
  {
    if GetOk(d.name) then d.name else d.handle
  }

  /** The group object built from the declared attributes, for the group `id`. */
  function Spec(d: UserGroupData, id: string): GroupSpec {
    GroupSpec(id, d.handle, SentName(d), d.description, d.autoType)
  }

  /** The list call a read issues when the cache is empty: disabled groups in, members and counts out. */
  const ListAll: Call := GetUserGroups(false, false, true)

  /**
   * Creates the group from handle, name (defaulting to the handle), description
   * and auto type, and takes the resource data from the answer, with no read.
   */
  function Create(d: UserGroupData, r: Remote, env: Env): (run: Run<UserGroupData>)
    ensures |run.calls| == 1 && run.calls[0].CreateUserGroup?
    ensures var sent := run.calls[0].spec;
      && sent.handle == d.handle && sent.description == d.description && sent.autoType == d.autoType
      && (GetOk(d.name) ==> sent.name == d.name)
      && (!GetOk(d.name) ==> sent.name == d.handle)
    ensures run.diag.Ok? <==> run.calls[0] !in env.faults
    ensures run.diag.Ok? ==>
      && |run.remote.groups| == |r.groups| + 1
      && run.remote.groups[..|r.groups|] == r.groups
      && var g := run.remote.groups[|r.groups|];
         && g == Group(env.newId, d.handle, SentName(d), d.description, d.autoType, env.teamId, true, [])
         && Mirrors(run.state, g)
    ensures run.diag.Fatal? ==> run.state == d && run.remote == r && run.diag.error.ApiError?
    ensures run.remote.channels == r.channels
  {
    var s := UsergroupsCreate(r, env, Spec(d, ""));
    match s.reply
    case Failed(_) => Abort(d, s)
    case Done(g) => Run(Ok, Configure(d, g), s.remote, [s.call])
  }

  /** Takes the resource data from the first listed group with the resource's ID. */
  function ReadFrom(d: UserGroupData, groups: seq<Group>, r: Remote, calls: seq<Call>): (run: Run<UserGroupData>)
    ensures run.remote == r && run.calls == calls
    ensures run.diag.Ok? <==> IndexOfId(groups, d.id).Some?
    ensures run.diag.Ok? ==> Mirrors(run.state, groups[IndexOfId(groups, d.id).value])
    ensures run.diag.Fatal? ==> run.state == d && run.diag.error == UserGroupNotFound(d.id)
  {
    match IndexOfId(groups, d.id)
    case Some(i) => Run(Ok, Configure(d, groups[i]), r, calls)
    case None => Run(Fatal(UserGroupNotFound(d.id)), d, r, calls)
  }

  /**
   * Finds the group by ID in the cached list; on a cache miss, lists all groups
   * once and caches the answer. A failed list call leaves the cache empty.
   */
  function Read(d: UserGroupData, r: Remote, env: Env, cache: Cache): (res: ReadResult)
    ensures res.run.remote == r
    ensures cache.Some? ==>
      && res.run.calls == [] && res.cache == cache
      && (res.run.diag.Ok? <==> IndexOfId(cache.value, d.id).Some?)
      && (res.run.diag.Ok? ==> Mirrors(res.run.state, cache.value[IndexOfId(cache.value, d.id).value]))
    ensures cache.None? ==> res.run.calls == [ListAll]
    ensures cache.None? && ListAll in env.faults ==>
      res == ReadResult(Run(Fatal(ApiError(env.faults[ListAll])), d, r, [ListAll]), None)
    ensures cache.None? && ListAll !in env.faults ==>
      && res.cache == Some(Listing(r.groups, false, true))
      && (res.run.diag.Ok? <==> IndexOfId(r.groups, d.id).Some?)
      && (res.run.diag.Ok? ==> Mirrors(res.run.state, Shown(r.groups[IndexOfId(r.groups, d.id).value], false)))
    ensures res.run.diag.Fatal? ==> res.run.state == d
    ensures res.run.diag.Ok? ==> res.run.state.id == d.id
  {
    match cache
    case Some(groups) => ReadResult(ReadFrom(d, groups, r, []), cache)
    case None =>
      var s := UsergroupsList(r, env, false, false, true);
      match s.reply
      case Failed(_) => ReadResult(Abort(d, s), None)
      case Done(groups) =>
        ListingKeepsAll(r.groups, false);
        ListingFindsSame(r.groups, false, d.id);
        ReadResult(ReadFrom(d, groups, s.remote, [s.call]), Some(groups))
  }

  /**
   * Sends one edit of the whole group, built from the existing ID and the
   * declared attributes, and takes the resource data from the answer.
   */
  function Update(d: UserGroupData, r: Remote, env: Env): (run: Run<UserGroupData>)
    ensures run.calls == [UpdateUserGroup(Spec(d, d.id))]
    ensures run.diag.Ok? <==> IndexOfId(r.groups, d.id).Some? && UpdateUserGroup(Spec(d, d.id)) !in env.faults
    ensures run.state.id == d.id && |run.remote.groups| == |r.groups|
    ensures run.diag.Ok? ==>
      var i := IndexOfId(r.groups, d.id).value;
      var g := run.remote.groups[i];
      && run.remote.groups == r.groups[i := g]
      && g == r.groups[i].(handle := d.handle, name := SentName(d), description := d.description, autoType := d.autoType)
      && Mirrors(run.state, g)
    ensures run.diag.Fatal? ==> run.state == d && run.remote == r && run.diag.error.ApiError?
    ensures run.remote.channels == r.channels
  {
    var s := UsergroupsUpdate(r, env, Spec(d, d.id));
    match s.reply
    case Failed(_) => Abort(d, s)
    case Done(g) => Run(Ok, Configure(d, g), s.remote, [s.call])
  }

  /** Disables the group, swallowing "already_disabled", and clears the ID. */
  function Delete(d: UserGroupData, r: Remote, env: Env): (run: Run<UserGroupData>)
    ensures run.calls == [DisableUserGroup(d.id)]
    ensures run.diag.Ok? <==> Tolerated(UsergroupsDisable(r, env, d.id).reply, AlreadyDisabled)
    ensures run.diag.Ok? ==>
      && run.state == d.(id := "")
      && IndexOfId(r.groups, d.id).Some?
      && var i := IndexOfId(r.groups, d.id).value;
         run.remote.groups == r.groups[i := r.groups[i].(enabled := false)]
    ensures run.diag.Fatal? ==> run.state == d && run.remote == r && run.diag.error.ApiError?
    ensures run.remote.channels == r.channels && |run.remote.groups| == |r.groups|
  {
    var s := UsergroupsDisable(r, env, d.id);
    if Tolerated(s.reply, AlreadyDisabled) then Run(Ok, d.(id := ""), s.remote, [s.call])
    else Abort(d, s)
  }

  // ---- properties ----

  /**
   * Create copies its answer straight into the resource data; a later live read
   * of the new group (its ID being new to the workspace) finds exactly that data.
   */
  lemma ReadAfterCreate(d: UserGroupData, r: Remote, env: Env, env2: Env)
    requires Create(d, r, env).diag.Ok?
    requires IndexOfId(r.groups, env.newId).None?
    requires ListAll !in env2.faults
    ensures var c := Create(d, r, env);
      var rd := Read(c.state, c.remote, env2, None).run;
      rd.diag.Ok? && rd.state == c.state
  {
    var c := Create(d, r, env);
    var g := c.remote.groups[|r.groups|];
    assert c.remote.groups == r.groups + [g];
    IndexOfIdAppended(r.groups, g);
  }

  /** Likewise, the data an update takes from its answer is what a later live read finds. */
  lemma ReadAfterUpdate(d: UserGroupData, r: Remote, env: Env, env2: Env)
    requires Update(d, r, env).diag.Ok?
    requires ListAll !in env2.faults
    ensures var u := Update(d, r, env);
      var rd := Read(u.state, u.remote, env2, None).run;
      rd.diag.Ok? && rd.state == u.state
  {
    var u := Update(d, r, env);
    var i := IndexOfId(r.groups, d.id).value;
    IndexOfIdAfterEdit(r.groups, i, u.remote.groups[i], d.id);
  }

  /**
   * A read served from a cache that holds what the list call would answer
   * agrees with a live read, and issues no call.
   */
  lemma CachedReadMatchesLive(d: UserGroupData, r: Remote, env: Env)
    requires ListAll !in env.faults
    ensures var cached := Read(d, r, env, Some(Listing(r.groups, false, true)));
      var live := Read(d, r, env, None);
      cached.run.diag == live.run.diag && cached.run.state == live.run.state && cached.run.calls == []
  {
  }

  /**
   * Two reads in one process, the first from an empty cache, issue one list
   * call between them: the second is served from the cache the first filled.
   */
  lemma OneListCallPerProcess(d1: UserGroupData, d2: UserGroupData, r: Remote, env1: Env, env2: Env)
    requires ListAll !in env1.faults
    ensures var first := Read(d1, r, env1, None);
      var second := Read(d2, first.run.remote, env2, first.cache);
      first.run.calls + second.run.calls == [ListAll]
  {
  }

  /**
   * The cache is never refreshed: a group created after the cache was filled
   * is reported as not found by a read served from that cache.
   */
  lemma StaleCacheMissesNewGroup(d: UserGroupData, r: Remote, env: Env, env2: Env, cache: Cache)
    requires cache == Some(Listing(r.groups, false, true))
    requires Create(d, r, env).diag.Ok?
    requires IndexOfId(r.groups, env.newId).None?
    ensures var c := Create(d, r, env);
      Read(c.state, c.remote, env2, cache).run.diag == Fatal(UserGroupNotFound(env.newId))
  {
    ListingFindsSame(r.groups, false, env.newId);
  }

  /**
   * Destroying succeeds exactly when the group exists and the call is not
   * faulted; it leaves the group disabled, and on a group already disabled it
   * changes nothing and still clears the ID.
   */
  lemma DeleteDisables(d: UserGroupData, r: Remote, env: Env)
    ensures var run := Delete(d, r, env);
      && (run.diag.Ok? <==> IndexOfId(r.groups, d.id).Some? && DisableUserGroup(d.id) !in env.faults)
      && (run.diag.Ok? ==> !run.remote.groups[IndexOfId(r.groups, d.id).value].enabled && run.state.id == "")
      && (IndexOfId(r.groups, d.id).Some? && !r.groups[IndexOfId(r.groups, d.id).value].enabled ==> run.remote == r)
  {
  }
}
