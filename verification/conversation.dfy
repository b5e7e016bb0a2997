/**
 * The slack_conversation resource: a channel created by name and privacy,
 * renamed and given a topic, purpose and archive state on update, and on
 * destroy either left alone or archived, as `action_on_destroy` says.
 */
module Conversation {
  import opened SlackApi
  import opened Lifecycle

  /** The two accepted values of `action_on_destroy`. */
  const ActionNone: string := "none"
  const ActionArchive: string := "archive"

  /**
   * The resource data of one slack_conversation: its ID, the declared
   * attributes and the attributes only the workspace sets. `isArchived` is
   * always present, because the schema gives it the default false.
   */
  datatype ConversationData = ConversationData(
    id: string,
    name: string,
    isPrivate: bool,
    topic: string,
    purpose: string,
    isArchived: bool,
    actionOnDestroy: string,
    isShared: bool,
    isExtShared: bool,
    isOrgShared: bool,
    created: int,
    creator: string)

  /** Every attribute the resource shares with a channel holds that channel's value. */
  predicate Mirrors(d: ConversationData, ch: Channel) {
    && d.name == ch.name
    && d.topic == ch.topic
    && d.purpose == ch.purpose
    && d.isArchived == ch.isArchived
    && d.isPrivate == ch.isPrivate
    && d.isShared == ch.isShared
    && d.isExtShared == ch.isExtShared
    && d.isOrgShared == ch.isOrgShared
    && d.created == ch.created
    && d.creator == ch.creator
  }

  /**
   * A callback touched at most channel `id`: the groups and the set of channels
   * are as they were, every other channel is unchanged, and `id` kept its privacy.
   */
  predicate Framed(r: Remote, r': Remote, id: string) {
    && r'.groups == r.groups
    && r'.channels.Keys == r.channels.Keys
    && (forall k :: k in r.channels && k != id ==> r'.channels[k] == r.channels[k])
    && (id in r.channels ==> r'.channels[id].isPrivate == r.channels[id].isPrivate)
  }

  /** configureSlackConversation: copy the channel into the resource data; the ID stays. */
  function Configure(d: ConversationData, ch: Channel): (d': ConversationData)
    ensures Mirrors(d', ch)
    ensures d'.id == d.id && d'.actionOnDestroy == d.actionOnDestroy
  {
    d.(name := ch.name, topic := ch.topic, purpose := ch.purpose, isArchived := ch.isArchived,
       isShared := ch.isShared, isExtShared := ch.isExtShared, isOrgShared := ch.isOrgShared,
       created := ch.created, creator := ch.creator, isPrivate := ch.isPrivate)
  }

  /** Fetches the channel `d.id` and copies it in; a failed fetch changes nothing. */
  function Read(d: ConversationData, r: Remote, env: Env): (run: Run<ConversationData>)
    ensures run.calls == [GetConversationInfo(d.id, false)] && run.remote == r
    ensures run.diag.Ok? <==> d.id in r.channels && GetConversationInfo(d.id, false) !in env.faults
    ensures run.diag.Ok? ==> run.state.id == d.id && Mirrors(run.state, r.channels[d.id])
    ensures run.diag.Ok? ==> run.state.actionOnDestroy == d.actionOnDestroy
    ensures run.diag.Fatal? ==> run.state == d && run.diag.error.ApiError?
  {
    var s := ConversationsInfo(r, env, d.id, false);
    match s.reply
    case Failed(_) => Abort(d, s)
    case Done(ch) => Run(Ok, Configure(d, ch), s.remote, [s.call])
  }

  /**
   * Creates the channel from the declared name and privacy, takes its ID, and
   * reads it back once.
   */
  function Create(d: ConversationData, r: Remote, env: Env): (run: Run<ConversationData>)
    ensures |run.calls| >= 1 && run.calls[0] == CreateConversation(d.name, d.isPrivate)
    ensures CreateConversation(d.name, d.isPrivate) in env.faults ==>
      run == Run(Fatal(ApiError(env.faults[CreateConversation(d.name, d.isPrivate)])), d, r, [CreateConversation(d.name, d.isPrivate)])
    ensures CreateConversation(d.name, d.isPrivate) !in env.faults ==>
      && run.calls == [CreateConversation(d.name, d.isPrivate), GetConversationInfo(env.newId, false)]
      && run.state.id == env.newId
      && (run.diag.Ok? <==> GetConversationInfo(env.newId, false) !in env.faults)
    ensures run.diag.Ok? ==>
      && env.newId in run.remote.channels
      && Mirrors(run.state, run.remote.channels[env.newId])
      && run.state.name == d.name && run.state.isPrivate == d.isPrivate
      && !run.state.isArchived && run.state.creator == env.caller && run.state.created == env.now
      && run.remote.channels == r.channels[env.newId := run.remote.channels[env.newId]]
  {
    var s := ConversationsCreate(r, env, d.name, d.isPrivate);
    match s.reply
    case Failed(_) => Abort(d, s)
    case Done(ch) => Then(s.call, Read(d.(id := ch.id), s.remote, env))
  }

  // ---- update ----

  /**
   * The channel an update converges `a` to: the declared name, the declared
   * topic and purpose where they are set, the declared archive state, and
   * nothing else changed.
   */
  function Target(d: ConversationData, a: Channel): Channel {
    a.(name := d.name,
       topic := if GetOk(d.topic) then d.topic else a.topic,
       purpose := if GetOk(d.purpose) then d.purpose else a.purpose,
       isArchived := d.isArchived)
  }

  /** What the archive step and the read make of `a`. */
  function AfterArchive(d: ConversationData, a: Channel): Channel {
    a.(isArchived := d.isArchived)
  }

  /** What the steps from set-purpose on make of `a`. */
  function AfterPurpose(d: ConversationData, a: Channel): Channel {
    AfterArchive(d, if GetOk(d.purpose) then a.(purpose := d.purpose) else a)
  }

  /** What the steps from set-topic on make of `a`. */
  function AfterTopic(d: ConversationData, a: Channel): Channel {
    AfterPurpose(d, if GetOk(d.topic) then a.(topic := d.topic) else a)
  }

  /** Archive when the declaration says archived, unarchive otherwise. */
  function ArchiveCall(d: ConversationData): Call {
    if d.isArchived then ArchiveConversation(d.id) else UnArchiveConversation(d.id)
  }

  /** The calls a fully successful update issues, step by step from the end. */
  function ArchivePlan(d: ConversationData): seq<Call> {
    [ArchiveCall(d), GetConversationInfo(d.id, false)]
  }

  function PurposePlan(d: ConversationData): seq<Call> {
    (if GetOk(d.purpose) then [SetPurposeOfConversation(d.id, d.purpose)] else []) + ArchivePlan(d)
  }

  function TopicPlan(d: ConversationData): seq<Call> {
    (if GetOk(d.topic) then [SetTopicOfConversation(d.id, d.topic)] else []) + PurposePlan(d)
  }

  function UpdatePlan(d: ConversationData): seq<Call> {
    [RenameConversation(d.id, d.name)] + TopicPlan(d)
  }

  /** Archives or unarchives as declared, swallowing the matching "already" code, then reads. */
  function SyncArchived(d: ConversationData, r: Remote, env: Env): (run: Run<ConversationData>)
    ensures |run.calls| >= 1 && run.calls <= ArchivePlan(d)
    ensures run.diag.Ok? ==> run.calls == ArchivePlan(d)
    ensures run.diag.Ok? <==> d.id in r.channels && forall c :: c in ArchivePlan(d) ==> c !in env.faults
    ensures run.state.id == d.id && (run.diag.Fatal? ==> run.state == d)
    ensures Framed(r, run.remote, d.id)
    ensures run.diag.Ok? ==>
      && d.id in r.channels
      && run.remote.channels[d.id] == AfterArchive(d, r.channels[d.id])
      && Mirrors(run.state, run.remote.channels[d.id])
  {
    var s := if d.isArchived then ConversationsArchive(r, env, d.id) else ConversationsUnarchive(r, env, d.id);
    if Tolerated(s.reply, if d.isArchived then AlreadyArchived else NotArchived) then
      Then(s.call, Read(d, s.remote, env))
    else Abort(d, s)
  }

  /** Sets the purpose when one is declared, then goes on to the archive state. */
  function SyncPurpose(d: ConversationData, r: Remote, env: Env): (run: Run<ConversationData>)
    ensures |run.calls| >= 1 && run.calls <= PurposePlan(d)
    ensures run.diag.Ok? ==> run.calls == PurposePlan(d)
    ensures run.diag.Ok? <==> d.id in r.channels && forall c :: c in PurposePlan(d) ==> c !in env.faults
    ensures run.state.id == d.id && (run.diag.Fatal? ==> run.state == d)
    ensures Framed(r, run.remote, d.id)
    ensures GetOk(d.purpose) && SetPurposeOfConversation(d.id, d.purpose) in env.faults ==>
      run == Run(Fatal(ApiError(env.faults[SetPurposeOfConversation(d.id, d.purpose)])), d, r, [SetPurposeOfConversation(d.id, d.purpose)])
    ensures run.diag.Ok? ==>
      && d.id in r.channels
      && run.remote.channels[d.id] == AfterPurpose(d, r.channels[d.id])
      && Mirrors(run.state, run.remote.channels[d.id])
  {
    if !GetOk(d.purpose) then SyncArchived(d, r, env)
    else
      var s := ConversationsSetPurpose(r, env, d.id, d.purpose);
      match s.reply
      case Failed(_) => Abort(d, s)
      case Done(_) => Then(s.call, SyncArchived(d, s.remote, env))
  }

  /** Sets the topic when one is declared, then goes on to the purpose. */
  function SyncTopic(d: ConversationData, r: Remote, env: Env): (run: Run<ConversationData>)
    ensures |run.calls| >= 1 && run.calls <= TopicPlan(d)
    ensures run.diag.Ok? ==> run.calls == TopicPlan(d)
    ensures run.diag.Ok? <==> d.id in r.channels && forall c :: c in TopicPlan(d) ==> c !in env.faults
    ensures run.state.id == d.id && (run.diag.Fatal? ==> run.state == d)
    ensures Framed(r, run.remote, d.id)
    ensures GetOk(d.topic) && SetTopicOfConversation(d.id, d.topic) in env.faults ==>
      run == Run(Fatal(ApiError(env.faults[SetTopicOfConversation(d.id, d.topic)])), d, r, [SetTopicOfConversation(d.id, d.topic)])
    ensures run.diag.Ok? ==>
      && d.id in r.channels
      && run.remote.channels[d.id] == AfterTopic(d, r.channels[d.id])
      && Mirrors(run.state, run.remote.channels[d.id])
  {
    if !GetOk(d.topic) then SyncPurpose(d, r, env)
    else
      var s := ConversationsSetTopic(r, env, d.id, d.topic);
      match s.reply
      case Failed(_) => Abort(d, s)
      case Done(_) => Then(s.call, SyncPurpose(d, s.remote, env))
  }

  /**
   * Renames, sets topic and purpose when declared, archives or unarchives, and
   * reads back; the first error ends the update with no further call.
   */
  function Update(d: ConversationData, r: Remote, env: Env): (run: Run<ConversationData>)
    ensures |run.calls| >= 1 && run.calls <= UpdatePlan(d)
    ensures run.diag.Ok? ==> run.calls == UpdatePlan(d)
    ensures run.diag.Ok? <==> d.id in r.channels && forall c :: c in UpdatePlan(d) ==> c !in env.faults
    ensures run.state.id == d.id && (run.diag.Fatal? ==> run.state == d)
    ensures Framed(r, run.remote, d.id)
    ensures d.id !in r.channels || RenameConversation(d.id, d.name) in env.faults ==>
      run.calls == [RenameConversation(d.id, d.name)] && run.diag.Fatal? && run.remote == r
    ensures run.diag.Ok? ==>
      && d.id in r.channels
      && run.remote.channels[d.id] == Target(d, r.channels[d.id])
      && Mirrors(run.state, run.remote.channels[d.id])
  {
    var s := ConversationsRename(r, env, d.id, d.name);
    match s.reply
    case Failed(_) => Abort(d, s)
    case Done(_) =>
      TargetInSteps(d, r.channels[d.id]);
      Then(s.call, SyncTopic(d, s.remote, env))
  }

  /** The target of an update is the rename followed by the topic, purpose and archive steps. */
  lemma TargetInSteps(d: ConversationData, a: Channel)
    ensures Target(d, a) == AfterTopic(d, a.(name := d.name))
  {
  }

  // ---- delete ----

  /**
   * "none" clears the ID with no call; "archive" archives, swallowing
   * "already_archived"; any other action fails before any call.
   */
  function Delete(d: ConversationData, r: Remote, env: Env): (run: Run<ConversationData>)
    ensures d.actionOnDestroy == ActionNone ==> run == Run(Ok, d.(id := ""), r, [])
    ensures d.actionOnDestroy == ActionArchive ==>
      && run.calls == [ArchiveConversation(d.id)]
      && (run.diag.Ok? <==> Tolerated(ConversationsArchive(r, env, d.id).reply, AlreadyArchived))
      && (run.diag.Ok? ==> run.state == d.(id := ""))
      && (run.diag.Fatal? ==> run.state == d && run.diag.error.ApiError?)
    ensures d.actionOnDestroy != ActionNone && d.actionOnDestroy != ActionArchive ==>
      run == Run(Fatal(UnknownAction(d.actionOnDestroy)), d, r, [])
    ensures Framed(r, run.remote, d.id)
  {
    if d.actionOnDestroy == ActionNone then Run(Ok, d.(id := ""), r, [])
    else if d.actionOnDestroy == ActionArchive then
      var s := ConversationsArchive(r, env, d.id);
      if Tolerated(s.reply, AlreadyArchived) then Run(Ok, d.(id := ""), s.remote, [s.call])
      else Abort(d, s)
    else Run(Fatal(UnknownAction(d.actionOnDestroy)), d, r, [])
  }

  // ---- properties ----

  /** A callback framed to channel `id` that leaves `id` as it was left the whole workspace as it was. */
  lemma FramedUnchanged(r: Remote, r': Remote, id: string)
    requires Framed(r, r', id) && id in r.channels && r'.channels[id] == r.channels[id]
    ensures r' == r
  {
    assert r'.channels == r.channels;
  }

  /** Updating a converged channel again with the same declaration changes nothing in the workspace. */
  lemma UpdateIdempotent(d: ConversationData, r: Remote, env1: Env, env2: Env)
    requires Update(d, r, env1).diag.Ok?
    ensures var r1 := Update(d, r, env1).remote;
      Update(d, r1, env2).diag.Ok? ==> Update(d, r1, env2).remote == r1
  {
    var r1 := Update(d, r, env1).remote;
    var r2 := Update(d, r1, env2).remote;
    if Update(d, r1, env2).diag.Ok? {
      var a := r.channels[d.id];
      assert r1.channels[d.id] == Target(d, a);
      assert r2.channels[d.id] == Target(d, Target(d, a));
      assert Target(d, Target(d, a)) == Target(d, a);
      FramedUnchanged(r1, r2, d.id);
    }
  }

  /**
   * The "already in that state" codes never fail an update: with no injected
   * fault, updating an existing channel succeeds whatever its archive state.
   */
  lemma UpdateSwallowsSentinels(d: ConversationData, r: Remote, env: Env)
    requires d.id in r.channels && env.faults == map[]
    ensures Update(d, r, env).diag.Ok?
  {
  }

  /** An empty declared topic or purpose leaves the channel's own one in place: an update cannot clear them. */
  lemma UpdateCannotClear(d: ConversationData, r: Remote, env: Env)
    requires Update(d, r, env).diag.Ok?
    ensures !GetOk(d.topic) ==> Update(d, r, env).remote.channels[d.id].topic == r.channels[d.id].topic
    ensures !GetOk(d.purpose) ==> Update(d, r, env).remote.channels[d.id].purpose == r.channels[d.id].purpose
  {
  }

  /**
   * Destroying with "archive" succeeds exactly when the channel exists and the
   * call is not faulted, leaves the channel archived, and on a channel already
   * archived changes nothing.
   */
  lemma DeleteArchives(d: ConversationData, r: Remote, env: Env)
    requires d.actionOnDestroy == ActionArchive
    ensures var run := Delete(d, r, env);
      && (run.diag.Ok? <==> d.id in r.channels && ArchiveConversation(d.id) !in env.faults)
      && (run.diag.Ok? ==> run.remote.channels[d.id].isArchived)
      && (d.id in r.channels && r.channels[d.id].isArchived ==> run.remote == r)
  {
  }

  /** A failed set-topic ends the update there: no purpose, archive or read call follows. */
  lemma UpdateStopsAtTopicError(d: ConversationData, r: Remote, env: Env)
    requires d.id in r.channels && RenameConversation(d.id, d.name) !in env.faults
    requires GetOk(d.topic) && SetTopicOfConversation(d.id, d.topic) in env.faults
    ensures Update(d, r, env).calls == [RenameConversation(d.id, d.name), SetTopicOfConversation(d.id, d.topic)]
    ensures Update(d, r, env).diag == Fatal(ApiError(env.faults[SetTopicOfConversation(d.id, d.topic)]))
    ensures Update(d, r, env).state == d
  {
    var s := ConversationsRename(r, env, d.id, d.name);
    assert s.reply.Done?;
  }

  /** A failed set-purpose ends the update there: no archive or read call follows. */
  lemma UpdateStopsAtPurposeError(d: ConversationData, r: Remote, env: Env)
    requires d.id in r.channels && RenameConversation(d.id, d.name) !in env.faults
    requires !GetOk(d.topic) || SetTopicOfConversation(d.id, d.topic) !in env.faults
    requires GetOk(d.purpose) && SetPurposeOfConversation(d.id, d.purpose) in env.faults
    ensures Update(d, r, env).calls == UpdatePlan(d)[..|UpdatePlan(d)| - 2]
    ensures Update(d, r, env).diag == Fatal(ApiError(env.faults[SetPurposeOfConversation(d.id, d.purpose)]))
  {
    var s := ConversationsRename(r, env, d.id, d.name);
    assert s.reply.Done?;
    if GetOk(d.topic) {
      var t := ConversationsSetTopic(s.remote, env, d.id, d.topic);
      assert t.reply.Done?;
    }
  }
}
