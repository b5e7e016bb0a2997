/**
 * The Slack workspace as the provider sees it through its API client: the
 * channels and user groups it holds, the client calls the provider issues,
 * and how the workspace answers each call.
 *
 * The workspace's answers are a model of the Web API, not of any code in the
 * provider: a call on an unknown object fails, archive/unarchive/enable/
 * disable report the "already in that state" code when nothing is to be done,
 * and every other call succeeds. Anything else that can go wrong (network,
 * rate limit, missing scope, ...) is an injected fault taken from `Env`.
 */
module SlackApi {
  import opened Options
  import UserList

  // The codes the workspace reports when an object is already in the requested state.
  const AlreadyArchived: string := "already_archived"
  const NotArchived: string := "not_archived"
  const AlreadyEnabled: string := "already_enabled"
  const AlreadyDisabled: string := "already_disabled"

  // The codes for an unknown channel or user group.
  const ChannelNotFound: string := "channel_not_found"
  const NoSuchSubteam: string := "no_such_subteam"

  // The codes for a membership write the workspace refuses: no users at all, or a disabled group.
  const NoUsersProvided: string := "no_users_provided"
  const SubteamDisabled: string := "subteam_disabled"

  predicate IsSentinel(code: string) {
    code == AlreadyArchived || code == NotArchived || code == AlreadyEnabled || code == AlreadyDisabled
  }

  /**
   * An error that stops a call before the workspace acts on it. It is never one
   * of the "already in that state" codes: only the workspace's own state yields those.
   */
  type Fault = code: string | !IsSentinel(code) witness "ratelimited"

  /** slack.Channel, restricted to the fields the provider reads or writes. */
  datatype Channel = Channel(
    id: string,
    name: string,
    topic: string,
    purpose: string,
    isArchived: bool,
    isPrivate: bool,
    isShared: bool,
    isExtShared: bool,
    isOrgShared: bool,
    created: int,
    creator: string)

  /** slack.UserGroup as the workspace stores it. */
  datatype Group = Group(
    id: string,
    handle: string,
    name: string,
    description: string,
    autoType: string,
    teamId: string,
    enabled: bool,
    users: seq<string>)

  /** The slack.UserGroup value the provider sends to create or edit a group. */
  datatype GroupSpec = GroupSpec(id: string, handle: string, name: string, description: string, autoType: string)

  /** The workspace. Groups keep the order in which the list call returns them. */
  datatype Remote = Remote(channels: map<string, Channel>, groups: seq<Group>)

  /** One call of the slack-go client, with the arguments the provider passes. */
  datatype Call =
    | GetConversationInfo(channel: string, includeLocale: bool)
    | CreateConversation(name: string, isPrivate: bool)
    | RenameConversation(channel: string, name: string)
    | SetTopicOfConversation(channel: string, topic: string)
    | SetPurposeOfConversation(channel: string, purpose: string)
    | ArchiveConversation(channel: string)
    | UnArchiveConversation(channel: string)
    | GetUserGroups(includeUsers: bool, includeCount: bool, includeDisabled: bool)
    | CreateUserGroup(spec: GroupSpec)
    | UpdateUserGroup(spec: GroupSpec)
    | EnableUserGroup(group: string)
    | DisableUserGroup(group: string)
    | GetUserGroupMembers(group: string)
    | UpdateUserGroupMembers(group: string, users: string)

  /**
   * The environment of one callback: which calls fail with which fault, and the
   * values only the workspace can choose (the ID of a new object, the creation
   * time, the calling user, the team).
   *
   * `newId` stands for an ID the workspace has not used yet. Nothing here
   * enforces that: a colliding ID replaces the channel of that ID, or adds a
   * second group with that ID, so the properties that rely on freshness
   * require it explicitly.
   */
  datatype Env = Env(faults: map<Call, Fault>, newId: string, now: int, caller: string, teamId: string)

  /** The client's answer: a value, or the error whose text is `code`. */
  datatype Reply<+T> = Done(value: T) | Failed(code: string)

  /** A call, its answer, and the workspace after it. */
  datatype Served<+T> = Served(call: Call, reply: Reply<T>, remote: Remote)

  /**
   * An injected fault pre-empts the workspace, which then does nothing: a call
   * that fails is never one the workspace applied (no lost responses).
   * Otherwise the workspace's own answer stands.
   */
  function Deliver<T>(env: Env, r: Remote, call: Call, reply: Reply<T>, after: Remote): Served<T> {
    if call in env.faults then Served(call, Failed(env.faults[call]), r)
    else Served(call, reply, after)
  }

  // ---- conversations ----

  function ConversationsInfo(r: Remote, env: Env, channel: string, includeLocale: bool): Served<Channel> {
    var call := GetConversationInfo(channel, includeLocale);
    if channel in r.channels then Deliver(env, r, call, Done(r.channels[channel]), r)
    else Deliver(env, r, call, Failed(ChannelNotFound), r)
  }

  /** A new channel: no topic or purpose, not archived, not shared, created now by the caller. */
  function ConversationsCreate(r: Remote, env: Env, name: string, isPrivate: bool): Served<Channel> {
    var ch := Channel(env.newId, name, "", "", false, isPrivate, false, false, false, env.now, env.caller);
    Deliver(env, r, CreateConversation(name, isPrivate), Done(ch), r.(channels := r.channels[env.newId := ch]))
  }

  function ConversationsRename(r: Remote, env: Env, channel: string, name: string): (s: Served<Channel>)
    ensures s.call == RenameConversation(channel, name)
    ensures s.reply.Done? <==> channel in r.channels && s.call !in env.faults
    ensures s.reply.Done? ==> s.remote == r.(channels := r.channels[channel := r.channels[channel].(name := name)])
    ensures s.reply.Failed? ==> s.remote == r
  {
    var call := RenameConversation(channel, name);
    if channel !in r.channels then Deliver(env, r, call, Failed(ChannelNotFound), r)
    else
      var ch := r.channels[channel].(name := name);
      Deliver(env, r, call, Done(ch), r.(channels := r.channels[channel := ch]))
  }

  function ConversationsSetTopic(r: Remote, env: Env, channel: string, topic: string): (s: Served<Channel>)
    ensures s.call == SetTopicOfConversation(channel, topic)
    ensures s.reply.Done? <==> channel in r.channels && s.call !in env.faults
    ensures s.reply.Done? ==> s.remote == r.(channels := r.channels[channel := r.channels[channel].(topic := topic)])
    ensures s.reply.Failed? ==> s.remote == r
  {
    var call := SetTopicOfConversation(channel, topic);
    if channel !in r.channels then Deliver(env, r, call, Failed(ChannelNotFound), r)
    else
      var ch := r.channels[channel].(topic := topic);
      Deliver(env, r, call, Done(ch), r.(channels := r.channels[channel := ch]))
  }

  function ConversationsSetPurpose(r: Remote, env: Env, channel: string, purpose: string): (s: Served<Channel>)
    ensures s.call == SetPurposeOfConversation(channel, purpose)
    ensures s.reply.Done? <==> channel in r.channels && s.call !in env.faults
    ensures s.reply.Done? ==> s.remote == r.(channels := r.channels[channel := r.channels[channel].(purpose := purpose)])
    ensures s.reply.Failed? ==> s.remote == r
  {
    var call := SetPurposeOfConversation(channel, purpose);
    if channel !in r.channels then Deliver(env, r, call, Failed(ChannelNotFound), r)
    else
      var ch := r.channels[channel].(purpose := purpose);
      Deliver(env, r, call, Done(ch), r.(channels := r.channels[channel := ch]))
  }

  function ConversationsArchive(r: Remote, env: Env, channel: string): (s: Served<()>)
    ensures s.call == ArchiveConversation(channel)
    ensures s.reply.Done? || s.reply.code == AlreadyArchived <==> channel in r.channels && s.call !in env.faults
    ensures s.reply.Done? || s.reply.code == AlreadyArchived ==>
      s.remote == r.(channels := r.channels[channel := r.channels[channel].(isArchived := true)])
    ensures !(s.reply.Done? || s.reply.code == AlreadyArchived) ==> s.remote == r
  {
    var call := ArchiveConversation(channel);
    if channel !in r.channels then Deliver(env, r, call, Failed(ChannelNotFound), r)
    else if r.channels[channel].isArchived then
      assert r.channels[channel := r.channels[channel].(isArchived := true)] == r.channels;
      Deliver(env, r, call, Failed(AlreadyArchived), r)
    else
      var ch := r.channels[channel].(isArchived := true);
      Deliver(env, r, call, Done(()), r.(channels := r.channels[channel := ch]))
  }

  function ConversationsUnarchive(r: Remote, env: Env, channel: string): (s: Served<()>)
    ensures s.call == UnArchiveConversation(channel)
    ensures s.reply.Done? || s.reply.code == NotArchived <==> channel in r.channels && s.call !in env.faults
    ensures s.reply.Done? || s.reply.code == NotArchived ==>
      s.remote == r.(channels := r.channels[channel := r.channels[channel].(isArchived := false)])
    ensures !(s.reply.Done? || s.reply.code == NotArchived) ==> s.remote == r
  {
    var call := UnArchiveConversation(channel);
    if channel !in r.channels then Deliver(env, r, call, Failed(ChannelNotFound), r)
    else if !r.channels[channel].isArchived then
      assert r.channels[channel := r.channels[channel].(isArchived := false)] == r.channels;
      Deliver(env, r, call, Failed(NotArchived), r)
    else
      var ch := r.channels[channel].(isArchived := false);
      Deliver(env, r, call, Done(()), r.(channels := r.channels[channel := ch]))
  }

  // ---- user groups ----

  /** The position of the first group with ID `id`, if any. */
  function IndexOfId(gs: seq<Group>, id: string): (k: Option<nat>)
    ensures k.Some? ==> k.value < |gs| && gs[k.value].id == id
    ensures k.Some? ==> forall j :: 0 <= j < k.value ==> gs[j].id != id
    ensures k.None? <==> forall j :: 0 <= j < |gs| ==> gs[j].id != id
    decreases |gs|
  {
    if |gs| == 0 then None
    else if gs[0].id == id then Some(0)
    else
      match IndexOfId(gs[1..], id)
      case None => None
      case Some(j) => Some(j + 1)
  }

  /** Replacing a group by one with the same ID does not move the first match for any ID. */
  lemma IndexOfIdAfterEdit(gs: seq<Group>, i: nat, g: Group, id: string)
    requires i < |gs| && g.id == gs[i].id
    ensures IndexOfId(gs[i := g], id) == IndexOfId(gs, id)
  {
    var hs := gs[i := g];
    assert forall j :: 0 <= j < |gs| ==> hs[j].id == gs[j].id;
  }

  /** A group appended with an ID no other group has is found at the end. */
  lemma IndexOfIdAppended(gs: seq<Group>, g: Group)
    requires IndexOfId(gs, g.id).None?
    ensures IndexOfId(gs + [g], g.id) == Some(|gs|)
  {
    var hs := gs + [g];
    assert hs[|gs|].id == g.id;
    assert forall j :: 0 <= j < |gs| ==> hs[j] == gs[j];
  }

  /** A group as the list call shows it: without its members unless they were asked for. */
  function Shown(g: Group, includeUsers: bool): Group {
    if includeUsers then g else g.(users := [])
  }

  /** The answer of the list call, in the workspace's order. */
  function Listing(gs: seq<Group>, includeUsers: bool, includeDisabled: bool): seq<Group>
    decreases |gs|
  {
    if |gs| == 0 then []
    else
      var rest := Listing(gs[1..], includeUsers, includeDisabled);
      if !includeDisabled && !gs[0].enabled then rest else [Shown(gs[0], includeUsers)] + rest
  }

  /** With disabled groups included, the list shows every group, in place, with the same ID. */
  lemma {:induction false} ListingKeepsAll(gs: seq<Group>, includeUsers: bool)
    ensures |Listing(gs, includeUsers, true)| == |gs|
    ensures forall i :: 0 <= i < |gs| ==> Listing(gs, includeUsers, true)[i] == Shown(gs[i], includeUsers)
    decreases |gs|
  {
    if |gs| > 0 {
      ListingKeepsAll(gs[1..], includeUsers);
      var ls := Listing(gs, includeUsers, true);
      forall i | 0 <= i < |gs| ensures ls[i] == Shown(gs[i], includeUsers) {
        if i > 0 {
          assert gs[1..][i - 1] == gs[i];
        }
      }
    }
  }

  /** Finding by ID in the full list finds the same position as in the workspace. */
  lemma {:induction false} ListingFindsSame(gs: seq<Group>, includeUsers: bool, id: string)
    ensures IndexOfId(Listing(gs, includeUsers, true), id) == IndexOfId(gs, id)
    decreases |gs|
  {
    if |gs| > 0 {
      var ls := Listing(gs, includeUsers, true);
      assert ls[1..] == Listing(gs[1..], includeUsers, true);
      ListingFindsSame(gs[1..], includeUsers, id);
    }
  }

  function UsergroupsList(r: Remote, env: Env, includeUsers: bool, includeCount: bool, includeDisabled: bool): Served<seq<Group>> {
    var call := GetUserGroups(includeUsers, includeCount, includeDisabled);
    Deliver(env, r, call, Done(Listing(r.groups, includeUsers, includeDisabled)), r)
  }

  /** A new group: enabled, no members, in the caller's team, appended to the list. */
  function UsergroupsCreate(r: Remote, env: Env, spec: GroupSpec): Served<Group> {
    var g := Group(env.newId, spec.handle, spec.name, spec.description, spec.autoType, env.teamId, true, []);
    Deliver(env, r, CreateUserGroup(spec), Done(g), r.(groups := r.groups + [g]))
  }

  /** Replaces handle, name, description and auto type of the group `spec.id`. */
  function UsergroupsUpdate(r: Remote, env: Env, spec: GroupSpec): Served<Group> {
    var call := UpdateUserGroup(spec);
    match IndexOfId(r.groups, spec.id)
    case None => Deliver(env, r, call, Failed(NoSuchSubteam), r)
    case Some(i) =>
      var g := r.groups[i].(handle := spec.handle, name := spec.name, description := spec.description, autoType := spec.autoType);
      Deliver(env, r, call, Done(g), r.(groups := r.groups[i := g]))
  }

  function UsergroupsEnable(r: Remote, env: Env, id: string): (s: Served<Group>)
    ensures s.call == EnableUserGroup(id) && s.remote.channels == r.channels
    ensures s.reply.Done? || s.reply.code == AlreadyEnabled ==>
      && IndexOfId(r.groups, id).Some?
      && var i := IndexOfId(r.groups, id).value;
         s.remote.groups == r.groups[i := r.groups[i].(enabled := true)]
    ensures !(s.reply.Done? || s.reply.code == AlreadyEnabled) ==> s.remote == r
  {
    var call := EnableUserGroup(id);
    match IndexOfId(r.groups, id)
    case None => Deliver(env, r, call, Failed(NoSuchSubteam), r)
    case Some(i) =>
      if r.groups[i].enabled then
        assert r.groups[i := r.groups[i].(enabled := true)] == r.groups;
        Deliver(env, r, call, Failed(AlreadyEnabled), r)
      else
        var g := r.groups[i].(enabled := true);
        Deliver(env, r, call, Done(g), r.(groups := r.groups[i := g]))
  }

  function UsergroupsDisable(r: Remote, env: Env, id: string): (s: Served<Group>)
    ensures s.call == DisableUserGroup(id) && s.remote.channels == r.channels
    ensures s.reply.Done? || s.reply.code == AlreadyDisabled ==>
      && IndexOfId(r.groups, id).Some?
      && var i := IndexOfId(r.groups, id).value;
         s.remote.groups == r.groups[i := r.groups[i].(enabled := false)]
    ensures !(s.reply.Done? || s.reply.code == AlreadyDisabled) ==> s.remote == r
  {
    var call := DisableUserGroup(id);
    match IndexOfId(r.groups, id)
    case None => Deliver(env, r, call, Failed(NoSuchSubteam), r)
    case Some(i) =>
      if !r.groups[i].enabled then
        assert r.groups[i := r.groups[i].(enabled := false)] == r.groups;
        Deliver(env, r, call, Failed(AlreadyDisabled), r)
      else
        var g := r.groups[i].(enabled := false);
        Deliver(env, r, call, Done(g), r.(groups := r.groups[i := g]))
  }

  function UsergroupsUsersList(r: Remote, env: Env, id: string): Served<seq<string>> {
    var call := GetUserGroupMembers(id);
    match IndexOfId(r.groups, id)
    case None => Deliver(env, r, call, Failed(NoSuchSubteam), r)
    case Some(i) => Deliver(env, r, call, Done(r.groups[i].users), r)
  }

  /**
   * Replaces the members of the group with the users named in the
   * comma-separated parameter. The workspace refuses an empty parameter, and
   * any membership write to a disabled group.
   */
  function UsergroupsUsersUpdate(r: Remote, env: Env, id: string, users: string): (s: Served<Group>)
    ensures s.call == UpdateUserGroupMembers(id, users) && s.remote.channels == r.channels
    ensures s.reply.Done? <==>
      && IndexOfId(r.groups, id).Some? && r.groups[IndexOfId(r.groups, id).value].enabled
      && users != "" && s.call !in env.faults
    ensures s.reply.Done? ==>
      var i := IndexOfId(r.groups, id).value;
      && s.remote.groups == r.groups[i := r.groups[i].(users := UserList.Split(users))]
      && s.reply.value == s.remote.groups[i]
    ensures s.reply.Failed? ==> s.remote == r
  {
    var call := UpdateUserGroupMembers(id, users);
    match IndexOfId(r.groups, id)
    case None => Deliver(env, r, call, Failed(NoSuchSubteam), r)
    case Some(i) =>
      if !r.groups[i].enabled then Deliver(env, r, call, Failed(SubteamDisabled), r)
      else if users == "" then Deliver(env, r, call, Failed(NoUsersProvided), r)
      else
        var g := r.groups[i].(users := UserList.Split(users));
        Deliver(env, r, call, Done(g), r.(groups := r.groups[i := g]))
  }
}
