# Slack provider reconciliation, modelled in Dafny

This project models the lifecycle callbacks of the Terraform Slack provider:

- `slack_conversation`: a channel;
- `slack_usergroup`: a user group;
- `slack_usergroup_members`: the member list of a user group;
- the `slack_usergroup` data source.

Each callback (create, read, update, delete) is a pure function. It takes the resource data (`d`: the ID and the attributes), the workspace (`Remote`: channels by ID, user groups in list order) and an environment (`Env`). The environment says which client calls fail and with what error, and it supplies the values only the workspace chooses: a new object's ID, the creation time, the caller and the team.

A callback returns a `Run`, which holds:

- the diagnostics;
- the resource data it leaves behind;
- the workspace afterwards;
- the client calls it issued, in order.

Modules:

- `Options`: the option type.
- `UserList`: the comma-joined member parameter and how the workspace splits it.
- `SlackApi`: channels, groups, the client calls, and how the workspace answers them.
- `Lifecycle`: errors and their message texts, `Run`, `GetOk`, and the abort and swallow-a-code helpers.
- `Conversation`, `UserGroup`, `UserGroupMembers`, `DataUserGroup`: one per resource or data source.

How the workspace answers is a modelling assumption about the Slack Web API, not code of the provider. A call on an unknown channel fails with `channel_not_found`, and one on an unknown group fails with `no_such_subteam`. Archive, unarchive, enable and disable report `already_archived`, `not_archived`, `already_enabled` or `already_disabled` when the object is already in that state. A membership write is refused when its user list is empty (`no_users_provided`) or the group is disabled (`subteam_disabled`); these two code texts are names the model chooses. Every other call succeeds, including rename, set-topic and set-purpose on an archived channel, and the members listing of a disabled group.

Any other failure (network, rate limit, scope) is an injected fault from `Env.faults`. A fault is never one of the four "already" codes, so those codes come only from the workspace's state. A faulted call has no effect on the workspace. A call that Slack applied but whose answer was lost therefore cannot happen in the model, and every "failure keeps the workspace" clause below rests on that.

`Env.newId` stands for an ID the workspace has not used yet. The model does not enforce it: a colliding ID replaces the channel with that ID, or adds a second group with that ID. The properties that need a fresh ID require it explicitly.

The SDK's `GetOk` on a string is "not empty". `is_archived` has the default `false`, so it is always present and is a plain `bool` in the model.

## Model

| member | source | states |
|---|---|---|
| Conversation.Configure | slack/resource_conversation.go:86-128 | every shared attribute, including `is_private`, the shared flags, `created` and `creator`, takes the channel's value; the ID and `action_on_destroy` stay |
| Conversation.Read | slack/resource_conversation.go:147-164 | one info call without locale; it succeeds exactly when the channel exists and the call is not faulted; success copies the channel in; failure leaves the data untouched and changes nothing remote |
| Conversation.Create | slack/resource_conversation.go:130-145 | create with the declared name and privacy first; a failed create ends there with the data unchanged; otherwise the ID becomes the new channel's and exactly one read of that ID follows; on success the data mirrors an unarchived channel with the declared name and privacy, and no other channel changed |
| Conversation.SyncArchived | slack/resource_conversation.go:186-202 | archive when `is_archived` is true, otherwise unarchive, with the matching "already" code swallowed, then one read; it succeeds exactly when the channel exists and neither call is faulted; on success the channel's archived flag equals the declared value |
| Conversation.SyncPurpose | slack/resource_conversation.go:180-184 | set-purpose is issued once, with the declared value, only when that value is non-empty; a failed set-purpose ends the callback with that call last and the data unchanged |
| Conversation.SyncTopic | slack/resource_conversation.go:174-178 | set-topic is issued once, with the declared value, only when that value is non-empty; a failed set-topic ends the callback with that call last and the data unchanged |
| Conversation.Update | slack/resource_conversation.go:166-203 | rename comes first, and a failed rename ends the update with no other call; the calls are always a non-empty prefix of rename, topic, purpose, archive or unarchive, read; the update succeeds exactly when the channel exists and no planned call is faulted; on success the channel has the declared name, topic and purpose where set, and archive state; only that channel changes, and it keeps its privacy |
| Conversation.Delete | slack/resource_conversation.go:205-228 | `none` clears the ID with no call; `archive` issues exactly one archive call, and success or `already_archived` clears the ID while any other error keeps the data; any other action fails with "unknown action" before any call |
| Conversation.UpdateIdempotent | slack/resource_conversation.go:166-203 | updating a converged channel again with the same declaration leaves the workspace as it was |
| Conversation.UpdateSwallowsSentinels | slack/resource_conversation.go:186-200 | with no injected fault, an update of an existing channel succeeds whether or not the channel is already archived |
| Conversation.UpdateCannotClear | slack/resource_conversation.go:174-184 | an empty declared topic or purpose leaves the channel's own value in place |
| Conversation.DeleteArchives | slack/resource_conversation.go:214-220 | archive-on-destroy succeeds exactly when the channel exists and the call is not faulted, leaves the channel archived, and changes nothing on a channel already archived |
| Conversation.UpdateStopsAtTopicError | slack/resource_conversation.go:174-178 | after a successful rename, a failed set-topic is the last call; its error is returned and the data is unchanged |
| Conversation.UpdateStopsAtPurposeError | slack/resource_conversation.go:180-184 | a failed set-purpose is the last call: the calls are the update plan without the archive and read calls |
| UserGroup.Configure | slack/resource_usergroup.go:52-59 | the ID, handle, name, description, auto type and team ID are the group's |
| UserGroup.SentName | slack/resource_usergroup.go:64-69 | the name sent is the declared name when it is non-empty, and otherwise the handle |
| UserGroup.Create | slack/resource_usergroup.go:61-88 | one create call carrying the handle, the defaulted name, the description and the auto type; success appends exactly that group, enabled, with no members, the workspace's new ID and its team, and the data mirrors it with no further call; failure keeps the data and the workspace |
| UserGroup.ReadFrom | slack/resource_usergroup.go:116-123 | the data is taken from the first group with the resource's ID; if there is none, the error is "not found" and the data is unchanged |
| UserGroup.Read | slack/resource_usergroup.go:90-124 | a cache hit issues no call and answers from the cache; a miss issues one list call (disabled groups in, members and counts out); a successful list fills the cache with its answer; a failed list returns its error and leaves the cache empty |
| UserGroup.Update | slack/resource_usergroup.go:126-155 | one whole-object edit carrying the existing ID and the declared fields, with the name defaulted; on success only that group changes, in exactly those fields, and the data mirrors it; on failure nothing changes |
| UserGroup.Delete | slack/resource_usergroup.go:157-172 | one disable call; success or `already_disabled` clears the ID and leaves that group disabled with no other group changed; any other error keeps the data and the workspace |
| UserGroup.ReadAfterCreate | slack/resource_usergroup.go:79-121 | a live read of a freshly created group finds exactly the data the create stored |
| UserGroup.ReadAfterUpdate | slack/resource_usergroup.go:116-153 | a live read after a successful update finds exactly the data the update stored |
| UserGroup.CachedReadMatchesLive | slack/resource_usergroup.go:100-121 | a read from a cache holding the list's answer agrees with a live read and issues no call |
| UserGroup.OneListCallPerProcess | slack/resource_usergroup.go:100-114 | two reads, the first from an empty cache, issue a single list call between them |
| UserGroup.StaleCacheMissesNewGroup | slack/resource_usergroup.go:100-123 | a read from a cache filled before a create reports the new group as not found |
| UserGroup.DeleteDisables | slack/resource_usergroup.go:163-171 | destroy succeeds exactly when the group exists and the call is not faulted; it leaves the group disabled, and on a group already disabled it changes nothing |
| UserGroupMembers.Import | slack/resource_usergroup_members.go:34-36 | after import, `usergroup_id` equals the ID, so the identity check holds |
| UserGroupMembers.Configure | slack/resource_usergroup_members.go:42-45 | the ID and the members are the group's; `usergroup_id` stays |
| UserGroupMembers.Replaced | slack/resource_usergroup_members.go:118-124 | one membership call with the comma-joined members; it succeeds exactly when the group exists and is enabled, the joined list is not empty, and the call is not faulted; on success only that group's members change, and the data takes the ID and the members from the answer |
| UserGroupMembers.Create | slack/resource_usergroup_members.go:47-70 | one replacement call with the whole declared list, with no identity check and no enable; it succeeds exactly when the group exists and is enabled, the joined list is not empty, and the call is not faulted; on success the identity check holds and the data's members equal the group's new members |
| UserGroupMembers.Read | slack/resource_usergroup_members.go:72-92 | a changed `usergroup_id` fails with "usergroup id has been changed" before any call; otherwise one get-members call, whose answer overwrites the members |
| UserGroupMembers.CreateEnabling | slack/resource_usergroup_members.go:103-124 | enable, where any error other than `already_enabled` ends the run with no member write, then the replacement call; it succeeds exactly when the enable is tolerated, the joined list is not empty and the write is not faulted; success leaves the group enabled with the joined list as its members |
| UserGroupMembers.Update | slack/resource_usergroup_members.go:94-127 | the identity check comes before any call; then enable, where any error other than `already_enabled` ends the update with no member write; it succeeds exactly when the enable is tolerated, the joined list is not empty and the write is not faulted; success leaves the group enabled with the joined list as its members |
| UserGroupMembers.Delete | slack/resource_usergroup_members.go:129-147 | the identity check comes before any call; then one disable call where no code is swallowed; success clears the ID and disables that group, which was enabled, with no other group changed; failure keeps the data and the workspace |
| UserGroupMembers.UpdateReplacesMembers | slack/resource_usergroup_members.go:109-124 | after a successful update, the group's members and the data's members are exactly the declared ones: a replacement, not a union |
| UserGroupMembers.CreateSetsMembers | slack/resource_usergroup_members.go:52-67 | after a successful create, the group's members and the data's members are exactly the declared ones |
| UserGroupMembers.ReplaceScenario | slack/resource_usergroup_members.go:109-124 | declaring U2 and U3 for a group holding U1 and U2 leaves it with U2 and U3 |
| UserGroupMembers.UpdateReenables | slack/resource_usergroup_members.go:103-107 | with no fault, an update of an existing group with a non-empty list of valid member IDs succeeds, whether or not the group is enabled |
| UserGroupMembers.EnableIsNeeded | slack/resource_usergroup_members.go:103-118 | on a disabled group the membership write alone fails with `subteam_disabled`, while the update, which enables first, succeeds |
| UserGroupMembers.UpdateWithoutMembersFails | slack/resource_usergroup_members.go:109-122 | an empty member list is sent as the empty parameter; the update enables the group, then fails on the write and keeps the data |
| UserGroupMembers.ReadAfterUpdate | slack/resource_usergroup_members.go:83-124 | a read after a successful update finds exactly the declared members |
| UserGroupMembers.RecreateAfterDestroyFails | slack/resource_usergroup_members.go:47-146 | a destroy disables the group, and a create after it fails with `subteam_disabled` because the create does not enable the group |
| UserGroupMembers.RecreateAfterDestroySucceeds | slack/resource_usergroup_members.go:47-146 | with the enable step, a create after a destroy succeeds and leaves the group enabled with exactly the declared members |
| UserGroupMembers.DeleteOfDisabledGroupFails | slack/resource_usergroup_members.go:139-142 | deleting the members of a group already disabled fails with `already_disabled` and keeps the data |
| UserGroupMembers.ImportPassesIdentityCheck | slack/resource_usergroup_members.go:34-36 | a read right after import passes the identity check and fetches the members |
| UserList.SplitJoin | slack/resource_usergroup_members.go:52-57 | member IDs joined with "," split back into the same IDs in the same order |
| DataUserGroup.Read | slack/data_usergroup.go:46-75 | one live list call (disabled groups in, members and counts out) and no cache; a failed list writes nothing; the first group with the requested ID supplies the ID, handle, name, description, auto type and team ID; if none matches, the error is "could not be found" |
| DataUserGroup.AgreesWithResourceRead | slack/data_usergroup.go:52-72 | the data source and a resource read from an empty cache issue the same call and find the same group with the same attributes |
| SlackApi.IndexOfId | slack/resource_usergroup.go:116-121 | the position of the first group with the ID; none exactly when no group has it |
| SlackApi.ListingFindsSame | slack/resource_usergroup.go:101-121 | searching the full list, disabled groups included, finds the same group as searching the workspace |

## Left out

- Conversation.UpdateSwallowsSentinels: holds only under the assumption that rename, set-topic and set-purpose succeed on an archived channel. The Slack Web API documents an `is_archived` error for these calls. Under that rejection an update of an archived channel would fail at the rename, before it could unarchive, so the `already_archived` swallow in the update could never be reached. The model does not encode that rejection.
- Lost responses: a call that fails never changed the workspace (see the workspace paragraph above). A create that Slack applied but whose answer was lost, which would leave an object behind that the resource data does not know, is not modelled.
- `slack/provider.go`: the provider wiring and its empty-token check are not part of this model.
- `slack/data_conversation.go`: the conversation data source is plain field copying through a `Team` value whose code is not part of this model.
- The cache file. `restoreJsonCache` and `saveCacheAsJson` are not part of this model. The cache is an `Option` of the list answer: `None` stands for an absent or unreadable file, and a save always succeeds.
- The slack-go client, HTTP and rate limiting. These are replaced by the workspace answers above and by injected faults.
- The plugin SDK's schema declarations, `ValidateFunc`, diff and plan. The resource data is a typed record whose absent strings are `""`.
- `ImportStatePassthroughContext` of `slack_conversation` and `slack_usergroup`: it only keeps the ID.
- Logging, context cancellation, and concurrency between resource instances.
- Conversation.Configure: the errors `d.Set` could return are not modelled, because a typed record cannot reject a value.
- UserGroup.Read: `include_count` is passed through but has no effect on the modelled answer, because the model has no member counts.
- UserGroupMembers.Read: the members listing of a disabled group is assumed to succeed. Only membership writes are refused on a disabled group.
- UserGroupMembers.Create: the declared member set is a sequence in the order the SDK lists the set. Members equal the declared ones only for IDs that are non-empty and have no comma (`UserList.AllValid`).

## Findings

| source | as written | input that shows it | evidently intended | confidence | as-written member | corrected member |
|---|---|---|---|---|---|---|
| slack/resource_usergroup_members.go:47-70 | the create writes the members without enabling the group, while the destroy (:140) disables the group and the update (:103-107) enables it before writing | destroy a `slack_usergroup_members` (the group becomes disabled), then create it again for the same group: the write reaches a disabled group and fails | enable the group first, swallowing `already_enabled`, as the update does | medium, not executed; it rests on the workspace refusing membership writes to a disabled group | UserGroupMembers.RecreateAfterDestroyFails | UserGroupMembers.RecreateAfterDestroySucceeds |
