/** What the translation promises: the JIT guard, the dispatch table, the payload rules,
    the error wrapping and the order of calls when a new user joins its groups. */
module TranslationProperties {
  import opened Wrappers
  import opened ScimTypes
  import opened Claims
  import opened ProviderConfig
  import opened Translation

  // ---- Reference tables.

  /** The provisioning-client entry point and method code each (entity type, operation)
      pair leads to first, or none for the unsupported pairs. */
  function DispatchTable(ty: EntityType, op: Operation): Option<(RemoteOp, HttpMethod)> {
    match (ty, op)
    case (UserEntity, Delete) => Some((ProvisionDeleteUser, HttpDelete))
    case (UserEntity, Post) => Some((ProvisionCreateUser, HttpPost))
    case (UserEntity, Put) => Some((ProvisionUpdateUser, HttpPost))
    case (UserEntity, Patch) => Some((ProvisionPatchUser, HttpPost))
    case (GroupEntity, Delete) => Some((ProvisionDeleteGroup, HttpDelete))
    case (GroupEntity, Post) => Some((ProvisionCreateGroup, HttpPost))
    case (GroupEntity, Put) => Some((ProvisionUpdateGroup, HttpPut))
    case (GroupEntity, Patch) => Some((ProvisionPatchGroup, HttpPut))
    case _ => None
  }

  /** The payload each supported pair sends with its first call: the delete builders for
      DELETE, the create builder for a user POST, the update builder for a user PUT or
      PATCH, and the group builder for a group POST, PUT or PATCH. */
  function DispatchPayload(config: map<string, string>, e: Entity): ScimObject {
    match (e.entityType, e.operation)
    case (UserEntity, Delete) => DeleteUserObject(e.attributes)
    case (UserEntity, Post) => CreateUserObject(config, e.attributes)
    case (UserEntity, _) => UpdateUserObject(config, e.attributes)
    case (GroupEntity, Delete) => DeleteGroupObject(e.attributes)
    case _ => GroupObject(e.attributes)
  }

  /** The message of the exception each supported pair throws on failure. */
  function FailureMessage(ty: EntityType, op: Operation): Option<string> {
    match (ty, op)
    case (UserEntity, Delete) => Some(DELETE_USER_FAILED)
    case (UserEntity, Post) => Some(CREATE_USER_FAILED)
    case (UserEntity, Put) => Some(CREATE_USER_FAILED)
    case (UserEntity, Patch) => Some(CREATE_USER_FAILED)
    case (GroupEntity, Delete) => Some(DELETE_GROUP_FAILED)
    case (GroupEntity, Post) => Some(CREATE_GROUP_FAILED)
    case (GroupEntity, Put) => Some(UPDATE_GROUP_FAILED)
    case (GroupEntity, Patch) => Some(UPDATE_GROUP_FAILED)
    case _ => None
  }

  /** The update that makes `userName` a member of `groupName`. */
  function MembershipUpdate(groupName: string, userName: string): Call {
    Remote(ProvisionUpdateGroup, ScimGroup(Some(groupName), [map[DISPLAY := userName]]), HttpPut, None)
  }

  /** The lookup exceptions the reconciler only logs. */
  predicate Swallowed(r: SearchResponse) {
    r.IoFailure? || r.BadRequestFailure? || r.CharonFailure?
  }

  /** A failure a reconciliation run over `groups` can end in. */
  ghost predicate ReconcileCause(s: Settings, user: Entity, groups: seq<string>, f: Fault) {
    || f == SearchFault(GroupSearch(s.config))
    || exists i :: 0 <= i < |groups| &&
         f == IdentityProvisioningException(UPDATE_GROUP_FAILED, ClientFault(MembershipUpdate(groups[i], user.entityName)))
  }

  // ---- Dispatcher.

  /** A null entity, and a JIT entity while the connector's JIT flag is off, issue no call;
      and no path of provision returns an identifier. */
  lemma ProvisionGuards(s: Settings, entity: Option<Entity>, env: Env, t: seq<Call>)
    ensures entity.None? ==> Provision(s, entity, env, t) == Provisioned(Success(None), t)
    ensures entity.Some? && entity.value.jitProvisioning && !s.jitEnabled ==>
      Provision(s, entity, env, t) == Provisioned(Success(None), t)
    ensures Provision(s, entity, env, t).result.Success? ==> Provision(s, entity, env, t).result.value == None
  {
  }

  /** Reconciliation only appends to the trace. */
  lemma {:induction false} ReconcileAllExtends(s: Settings, user: Entity, groups: seq<string>, env: Env, t: seq<Call>)
    ensures |ReconcileAll(s, user, groups, env, t).trace| >= |t|
    ensures ReconcileAll(s, user, groups, env, t).trace[..|t|] == t
    decreases |groups|
  {
    if groups != [] {
      var r := ReconcileAll(s, user, groups[..|groups| - 1], env, t);
      ReconcileAllExtends(s, user, groups[..|groups| - 1], env, t);
      if r.status.Pass? {
        var r2 := ReconcileStep(s, user, groups[|groups| - 1], env, r.trace);
        assert r2.trace[..|r.trace|] == r.trace;
        assert r2.trace[..|t|] == r2.trace[..|r.trace|][..|t|];
      }
    }
  }

  /** createUser appends the user create first, and only appends. */
  lemma CreateUserStepExtends(s: Settings, e: Entity, env: Env, t: seq<Call>)
    ensures var r := CreateUserStep(s, e, env, t);
      |r.trace| > |t| && r.trace[..|t| + 1] == t + [Remote(ProvisionCreateUser, CreateUserObject(s.config, e.attributes), HttpPost, None)]
  {
    var call := Remote(ProvisionCreateUser, CreateUserObject(s.config, e.attributes), HttpPost, None);
    var t1 := t + [call];
    if env.accepts(t, call) {
      ReconcileAllExtends(s, e, NewGroupValues(e.attributes), env, t1);
    } else {
      assert t1[..|t1|] == t1;
    }
  }

  /** `trace` extends `t`, and its next call is the one the table names for `e`, if any,
      carrying the payload the table names. */
  predicate FollowsTable(config: map<string, string>, e: Entity, t: seq<Call>, trace: seq<Call>) {
    && |trace| >= |t| && trace[..|t|] == t
    && (DispatchTable(e.entityType, e.operation).None? ==> trace == t)
    && (DispatchTable(e.entityType, e.operation).Some? ==>
          && |trace| > |t| && trace[|t|].Remote?
          && (trace[|t|].op, trace[|t|].httpMethod) == DispatchTable(e.entityType, e.operation).value
          && trace[|t|].payload == DispatchPayload(config, e))
  }

  lemma IssueFollowsTable(config: map<string, string>, e: Entity, env: Env, t: seq<Call>, call: Call, message: string)
    requires call.Remote? && DispatchTable(e.entityType, e.operation) == Some((call.op, call.httpMethod))
    requires call.payload == DispatchPayload(config, e)
    ensures FollowsTable(config, e, t, Issue(env, t, call, message).trace)
  {
    assert (t + [call])[..|t|] == t;
  }

  lemma DispatchStepFollowsTable(s: Settings, e: Entity, env: Env, t: seq<Call>)
    ensures FollowsTable(s.config, e, t, Dispatch(s, e, env, t).trace)
    ensures DispatchTable(e.entityType, e.operation).None? ==> Dispatch(s, e, env, t) == Step(Pass, t)
  {
    match e.entityType
    case UserEntity =>
      if e.operation == Delete {
        IssueFollowsTable(s.config, e, env, t, Remote(ProvisionDeleteUser, DeleteUserObject(e.attributes), HttpDelete, None), DELETE_USER_FAILED);
      } else if e.operation == Post {
        CreateUserStepExtends(s, e, env, t);
        var tr := CreateUserStep(s, e, env, t).trace;
        assert tr[..|t|] == tr[..|t| + 1][..|t|];
        assert tr[|t|] == tr[..|t| + 1][|t|];
      } else if e.operation == Put {
        IssueFollowsTable(s.config, e, env, t, Remote(ProvisionUpdateUser, UpdateUserObject(s.config, e.attributes), HttpPost, None), CREATE_USER_FAILED);
      } else if e.operation == Patch {
        IssueFollowsTable(s.config, e, env, t, Remote(ProvisionPatchUser, UpdateUserObject(s.config, e.attributes), HttpPost, None), CREATE_USER_FAILED);
      } else {
        assert t[..|t|] == t;
      }
    case GroupEntity =>
      var info := RenameInfo(AttributeValue(e.attributes, OLD_GROUP_NAME_CLAIM_URI));
      if e.operation == Delete {
        IssueFollowsTable(s.config, e, env, t, Remote(ProvisionDeleteGroup, DeleteGroupObject(e.attributes), HttpDelete, None), DELETE_GROUP_FAILED);
      } else if e.operation == Post {
        IssueFollowsTable(s.config, e, env, t, Remote(ProvisionCreateGroup, GroupObject(e.attributes), HttpPost, None), CREATE_GROUP_FAILED);
      } else if e.operation == Put {
        IssueFollowsTable(s.config, e, env, t, Remote(ProvisionUpdateGroup, GroupObject(e.attributes), HttpPut, info), UPDATE_GROUP_FAILED);
      } else if e.operation == Patch {
        IssueFollowsTable(s.config, e, env, t, Remote(ProvisionPatchGroup, GroupObject(e.attributes), HttpPut, info), UPDATE_GROUP_FAILED);
      } else {
        assert t[..|t|] == t;
      }
    case OtherEntity =>
      assert t[..|t|] == t;
  }

  /** provision only appends to the trace; the first call it appends is the one the
      dispatch table names, with the payload it names, and it appends nothing for the
      unsupported pairs. */
  lemma DispatchFollowsTable(s: Settings, e: Entity, env: Env, t: seq<Call>)
    requires !(e.jitProvisioning && !s.jitEnabled)
    ensures FollowsTable(s.config, e, t, Provision(s, Some(e), env, t).trace)
    ensures DispatchTable(e.entityType, e.operation).None? ==> Provision(s, Some(e), env, t) == Provisioned(Success(None), t)
  {
    DispatchStepFollowsTable(s, e, env, t);
  }

  /** Every failure of provision is one IdentityProvisioningException carrying the message of
      the operation that was asked for; the unsupported pairs never fail. */
  lemma FailuresAreWrapped(s: Settings, e: Entity, env: Env, t: seq<Call>)
    ensures var r := Provision(s, Some(e), env, t);
      r.result.Failure? ==>
        && r.result.error.IdentityProvisioningException?
        && FailureMessage(e.entityType, e.operation) == Some(r.result.error.message)
  {
  }

  /** `r` is one client call appended to `t`, failing exactly when the remote side rejects
      it, with an exception carrying `message` and the rejected call as its cause. */
  predicate OneCall(env: Env, t: seq<Call>, message: string, r: Step) {
    && |r.trace| == |t| + 1 && r.trace[..|t|] == t
    && (r.status.Fail? <==> !env.accepts(t, r.trace[|t|]))
    && (r.status.Fail? ==> r.status.error == IdentityProvisioningException(message, ClientFault(r.trace[|t|])))
  }

  lemma IssueOneCall(env: Env, t: seq<Call>, call: Call, message: string)
    ensures OneCall(env, t, message, Issue(env, t, call, message))
  {
    assert (t + [call])[..|t|] == t;
  }

  lemma DispatchOneCall(s: Settings, e: Entity, env: Env, t: seq<Call>)
    requires FailureMessage(e.entityType, e.operation).Some?
    requires !(e.entityType == UserEntity && e.operation == Post)
    ensures OneCall(env, t, FailureMessage(e.entityType, e.operation).value, Dispatch(s, e, env, t))
  {
    var info := RenameInfo(AttributeValue(e.attributes, OLD_GROUP_NAME_CLAIM_URI));
    match e.entityType
    case UserEntity =>
      if e.operation == Delete {
        IssueOneCall(env, t, Remote(ProvisionDeleteUser, DeleteUserObject(e.attributes), HttpDelete, None), DELETE_USER_FAILED);
      } else if e.operation == Put {
        IssueOneCall(env, t, Remote(ProvisionUpdateUser, UpdateUserObject(s.config, e.attributes), HttpPost, None), CREATE_USER_FAILED);
      } else {
        IssueOneCall(env, t, Remote(ProvisionPatchUser, UpdateUserObject(s.config, e.attributes), HttpPost, None), CREATE_USER_FAILED);
      }
    case GroupEntity =>
      if e.operation == Delete {
        IssueOneCall(env, t, Remote(ProvisionDeleteGroup, DeleteGroupObject(e.attributes), HttpDelete, None), DELETE_GROUP_FAILED);
      } else if e.operation == Post {
        IssueOneCall(env, t, Remote(ProvisionCreateGroup, GroupObject(e.attributes), HttpPost, None), CREATE_GROUP_FAILED);
      } else if e.operation == Put {
        IssueOneCall(env, t, Remote(ProvisionUpdateGroup, GroupObject(e.attributes), HttpPut, info), UPDATE_GROUP_FAILED);
      } else {
        IssueOneCall(env, t, Remote(ProvisionPatchGroup, GroupObject(e.attributes), HttpPut, info), UPDATE_GROUP_FAILED);
      }
  }

  /** Every supported pair other than a user POST issues exactly one client call: the
      trace grows by that call alone, provision fails exactly when the call is rejected, and
      the failure is the pair's IdentityProvisioningException with the rejected call as its
      cause; a success returns null. */
  lemma SingleCallOutcome(s: Settings, e: Entity, env: Env, t: seq<Call>)
    requires DispatchTable(e.entityType, e.operation).Some?
    requires !(e.entityType == UserEntity && e.operation == Post)
    requires !(e.jitProvisioning && !s.jitEnabled)
    ensures var r := Provision(s, Some(e), env, t);
      && |r.trace| == |t| + 1 && r.trace[..|t|] == t
      && (r.result.Failure? <==> !env.accepts(t, r.trace[|t|]))
      && (r.result.Failure? ==>
            r.result.error == IdentityProvisioningException(FailureMessage(e.entityType, e.operation).value, ClientFault(r.trace[|t|])))
      && (r.result.Success? ==> r.result == Success(None))
  {
    DispatchOneCall(s, e, env, t);
  }

  // ---- Payloads.

  /** The password policy: enabled provisioning (exactly "true") takes the password from the
      claims even when a default exists; otherwise a non-blank default is used; otherwise the
      password is left unset. */
  lemma PasswordPrecedence(config: map<string, string>, attrs: seq<Attribute>, user: ScimObject)
    requires user.ScimUser?
    ensures WithPassword(config, attrs, user).ScimUser?
    ensures WithPassword(config, attrs, user).userName == user.userName
    ensures WithPassword(config, attrs, user).source == user.source
    ensures GetProperty(config, SCIM_ENABLE_PASSWORD_PROVISIONING) == Some("true") ==>
      WithPassword(config, attrs, user).password == PasswordClaim(attrs)
    ensures GetProperty(config, SCIM_ENABLE_PASSWORD_PROVISIONING) != Some("true") && IsNotBlank(GetProperty(config, SCIM_DEFAULT_PASSWORD)) ==>
      WithPassword(config, attrs, user).password == Some(config[SCIM_DEFAULT_PASSWORD])
    ensures GetProperty(config, SCIM_ENABLE_PASSWORD_PROVISIONING) != Some("true") && !IsNotBlank(GetProperty(config, SCIM_DEFAULT_PASSWORD)) ==>
      WithPassword(config, attrs, user) == user
  {
  }

  /** A blank default password is never sent: whatever the user carries then comes from the
      claims or is unset. */
  lemma BlankDefaultNeverSent(config: map<string, string>, attrs: seq<Attribute>)
    requires GetProperty(config, SCIM_ENABLE_PASSWORD_PROVISIONING) != Some("true")
    requires !IsNotBlank(GetProperty(config, SCIM_DEFAULT_PASSWORD))
    ensures CreateUserObject(config, attrs).password == None
    ensures UpdateUserObject(config, attrs).password == None
  {
  }

  /** `field` holds the first of `names`, or null exactly when there is none. */
  predicate FirstOrNull(field: Option<string>, names: seq<string>) {
    (field.None? <==> names == []) && (field.Some? ==> field.value == names[0])
  }

  /** The identifying field of every payload is the first username or group name, or null
      when the list is empty; it is never fabricated. */
  lemma IdentifyingFields(config: map<string, string>, attrs: seq<Attribute>)
    ensures CreateUserObject(config, attrs).ScimUser? && FirstOrNull(CreateUserObject(config, attrs).userName, UserNames(attrs))
    ensures UpdateUserObject(config, attrs).ScimUser? && FirstOrNull(UpdateUserObject(config, attrs).userName, UserNames(attrs))
    ensures FirstOrNull(DeleteUserObject(attrs).userName, UserNames(attrs))
    ensures FirstOrNull(GroupObject(attrs).displayName, GroupNames(attrs))
    ensures FirstOrNull(DeleteGroupObject(attrs).displayName, GroupNames(attrs))
  {
  }

  /** createUser always uses the attribute mapper; updateUser falls back to a minimal user
      exactly when there are no single-valued claims; the delete payloads carry nothing but
      the identifying field. */
  lemma UserSources(config: map<string, string>, attrs: seq<Attribute>)
    ensures CreateUserObject(config, attrs).source == Mapped(SingleValuedClaims(attrs))
    ensures UpdateUserObject(config, attrs).source == Minimal <==> SingleValuedClaims(attrs) == map[]
    ensures UpdateUserObject(config, attrs).source != Minimal ==>
      UpdateUserObject(config, attrs).source == Mapped(SingleValuedClaims(attrs))
    ensures DeleteUserObject(attrs).source == Minimal && DeleteUserObject(attrs).password == None
    ensures DeleteGroupObject(attrs).members == []
  {
  }

  /** The group payload lists one `display` member per username, in list order. */
  lemma GroupMembers(attrs: seq<Attribute>)
    ensures var names := UserNames(attrs);
      && |GroupObject(attrs).members| == |names|
      && forall i :: 0 <= i < |names| ==> GroupObject(attrs).members[i] == map[DISPLAY := names[i]]
  {
  }

  /** A rename hint is attached exactly when the old group name is non-empty, and it then
      holds exactly the rename flag set to true and the old name. */
  lemma RenameHintExactly(oldGroupName: Option<string>)
    ensures RenameInfo(oldGroupName).Some? <==> oldGroupName.Some? && oldGroupName.value != ""
    ensures RenameInfo(oldGroupName).Some? ==>
      && RenameInfo(oldGroupName).value.Keys == {IS_ROLE_NAME_CHANGED_ON_UPDATE, OLD_GROUP_NAME}
      && RenameInfo(oldGroupName).value[IS_ROLE_NAME_CHANGED_ON_UPDATE] == Flag(true)
      && RenameInfo(oldGroupName).value[OLD_GROUP_NAME] == Text(oldGroupName.value)
  {
  }

  /** A group update sends the group payload with the rename hint of the entity's old group
      name; PUT routes to update and PATCH to patch. */
  lemma UpdateGroupCall(e: Entity, env: Env, t: seq<Call>)
    requires e.operation == Put || e.operation == Patch
    ensures var info := RenameInfo(AttributeValue(e.attributes, OLD_GROUP_NAME_CLAIM_URI));
      var op := if e.operation == Put then ProvisionUpdateGroup else ProvisionPatchGroup;
      UpdateGroupStep(e, env, t).trace == t + [Remote(op, GroupObject(e.attributes), HttpPut, info)]
  {
  }

  /** updateGroup never reads the entity's provisioned identifier: the group id the
      reconciler looks up and attaches reaches no outbound call. */
  lemma UpdateGroupIgnoresIdentifier(e: Entity, id1: Option<ProvisionedIdentifier>, id2: Option<ProvisionedIdentifier>, env: Env, t: seq<Call>)
    ensures UpdateGroupStep(e.(identifier := id1), env, t) == UpdateGroupStep(e.(identifier := id2), env, t)
  {
  }

  // ---- Reconciler.

  /** The synthetic entity carries the group name, the user as its only member and no old
      group name. */
  lemma MembershipEntityClaims(userName: string, groupName: string)
    ensures var attrs := MembershipEntity(userName, groupName).attributes;
      && GroupNames(attrs) == [groupName]
      && UserNames(attrs) == [userName]
      && ClaimValues(attrs, NEW_USER_CLAIM_URI) == [userName]
      && ClaimValues(attrs, DELETED_USER_CLAIM_URI) == []
      && AttributeValue(attrs, OLD_GROUP_NAME_CLAIM_URI) == None
  {
    var attrs := MembershipEntity(userName, groupName).attributes;
    assert GROUP_CLAIM_URI != USERNAME_CLAIM_URI && GROUP_CLAIM_URI != NEW_USER_CLAIM_URI;
    assert USERNAME_CLAIM_URI != NEW_USER_CLAIM_URI;
    assert ClaimValues(attrs, USERNAME_CLAIM_URI) == ClaimValues(attrs[1..], USERNAME_CLAIM_URI);
    assert ClaimValues(attrs, NEW_USER_CLAIM_URI) == ClaimValues(attrs[1..][1..], NEW_USER_CLAIM_URI);
    assert attrs[1..][1..][1..][1..] == [];
    assert OLD_GROUP_NAME_CLAIM_URI != GROUP_CLAIM_URI && OLD_GROUP_NAME_CLAIM_URI != USERNAME_CLAIM_URI;
    assert OLD_GROUP_NAME_CLAIM_URI != NEW_USER_CLAIM_URI && OLD_GROUP_NAME_CLAIM_URI != DELETED_USER_CLAIM_URI;
    assert ClaimValues(attrs, OLD_GROUP_NAME_CLAIM_URI) == ClaimValues(attrs[1..][1..], OLD_GROUP_NAME_CLAIM_URI);
    assert ClaimValues(attrs[1..][1..], OLD_GROUP_NAME_CLAIM_URI) == ClaimValues(attrs[1..][1..][1..][1..], OLD_GROUP_NAME_CLAIM_URI);
    assert DELETED_USER_CLAIM_URI != GROUP_CLAIM_URI && DELETED_USER_CLAIM_URI != USERNAME_CLAIM_URI;
    assert DELETED_USER_CLAIM_URI != NEW_USER_CLAIM_URI;
    assert ClaimValues(attrs, DELETED_USER_CLAIM_URI) == ClaimValues(attrs[1..][1..][1..], DELETED_USER_CLAIM_URI);
  }

  /** The update of the membership entity, whatever identifier it carries, issues the
      membership update with the group's update-failure message. */
  lemma MembershipUpdateIssued(userName: string, groupName: string, id: Option<ProvisionedIdentifier>, env: Env, t: seq<Call>)
    ensures UpdateGroupStep(MembershipEntity(userName, groupName).(identifier := id), env, t)
      == Issue(env, t, MembershipUpdate(groupName, userName), UPDATE_GROUP_FAILED)
  {
    MembershipEntityClaims(userName, groupName);
    var entity := MembershipEntity(userName, groupName);
    assert Members([userName]) == [map[DISPLAY := userName]];
    assert GroupObject(entity.attributes) == ScimGroup(Some(groupName), [map[DISPLAY := userName]]);
    assert RenameInfo(AttributeValue(entity.attributes, OLD_GROUP_NAME_CLAIM_URI)) == None;
  }

  /** One reconciliation: a lookup with the fixed query, then, when it lists groups, the
      membership update (which does not depend on the ids found). Lookup exceptions of the
      three caught kinds end it quietly; any other propagates. */
  lemma ReconcileStepTrace(s: Settings, user: Entity, groupName: string, env: Env, t: seq<Call>)
    ensures var search := GroupSearch(s.config);
      var update := MembershipUpdate(groupName, user.entityName);
      var r := ReconcileStep(s, user, groupName, env, t);
      && search.query == GROUP_QUERY
      && (env.search(t, search).Listed? ==>
            var ids := env.search(t, search).groupIds;
            var lastId := if ids == [] then None else ids[|ids| - 1];
            r == UpdateGroupStep(MembershipEntity(user.entityName, groupName).(identifier := Some(ProvisionedIdentifier(lastId))), env, t + [search]))
      && (env.search(t, search).Listed? && env.accepts(t + [search], update) ==>
            r == Step(Pass, t + [search, update]))
      && (env.search(t, search).Listed? && !env.accepts(t + [search], update) ==>
            r == Step(Fail(IdentityProvisioningException(UPDATE_GROUP_FAILED, ClientFault(update))), t + [search, update]))
      && (Swallowed(env.search(t, search)) ==> r == Step(Pass, t + [search]))
      && (env.search(t, search).UncheckedFailure? ==> r == Step(Fail(SearchFault(search)), t + [search]))
  {
    var search := GroupSearch(s.config);
    if env.search(t, search).Listed? {
      var ids := env.search(t, search).groupIds;
      MembershipUpdateIssued(user.entityName, groupName, Some(ProvisionedIdentifier(KeepLast(None, ids))), env, t + [search]);
    }
  }

  /** One reconciliation with the remote side accepting the update after a listed lookup. */
  lemma ReconcileStepAccepted(s: Settings, user: Entity, groupName: string, env: Env, t: seq<Call>)
    requires env.search(t, GroupSearch(s.config)).Listed?
    requires env.accepts(t + [GroupSearch(s.config)], MembershipUpdate(groupName, user.entityName))
    ensures ReconcileStep(s, user, groupName, env, t) ==
      Step(Pass, t + [GroupSearch(s.config), MembershipUpdate(groupName, user.entityName)])
  {
    ReconcileStepTrace(s, user, groupName, env, t);
  }

  /** After a listed lookup the reconciler's second call, when accepted, is the group update
      with method code PUT whose payload names the looked-up group and holds the user as its
      only member, and which carries no rename hint. */
  lemma ReconcileUpdateAddsUser(s: Settings, user: Entity, groupName: string, env: Env, t: seq<Call>)
    requires env.search(t, GroupSearch(s.config)).Listed?
    requires env.accepts(t + [GroupSearch(s.config)], MembershipUpdate(groupName, user.entityName))
    ensures var r := ReconcileStep(s, user, groupName, env, t);
      && r.status == Pass && |r.trace| == |t| + 2
      && r.trace[|t| + 1] == Remote(ProvisionUpdateGroup, ScimGroup(Some(groupName), [map[DISPLAY := user.entityName]]), HttpPut, None)
  {
    ReconcileStepAccepted(s, user, groupName, env, t);
  }

  /** `trace` is `t` followed, per group in order, by `search` and the membership update. */
  predicate Interleaved(trace: seq<Call>, t: seq<Call>, search: Call, groups: seq<string>, userName: string) {
    && |trace| == |t| + 2 * |groups|
    && trace[..|t|] == t
    && forall i :: 0 <= i < |groups| ==>
         trace[|t| + 2 * i] == search && trace[|t| + 2 * i + 1] == MembershipUpdate(groups[i], userName)
  }

  lemma InterleavedSnoc(trace: seq<Call>, t: seq<Call>, search: Call, groups: seq<string>, userName: string)
    requires groups != []
    requires Interleaved(trace, t, search, groups[..|groups| - 1], userName)
    ensures Interleaved(trace + [search, MembershipUpdate(groups[|groups| - 1], userName)], t, search, groups, userName)
  {
    var n := |groups| - 1;
    var full := trace + [search, MembershipUpdate(groups[n], userName)];
    assert full[..|t|] == trace[..|t|];
    forall i | 0 <= i < |groups|
      ensures full[|t| + 2 * i] == search && full[|t| + 2 * i + 1] == MembershipUpdate(groups[i], userName)
    {
      if i < n {
        assert groups[..n][i] == groups[i];
      } else {
        assert |t| + 2 * i == |trace|;
      }
    }
  }

  /** With every call accepted and every lookup answered, reconciliation issues, per group in
      order, the lookup followed by the membership update. */
  lemma {:induction false} ReconcileAllSucceeds(s: Settings, user: Entity, groups: seq<string>, env: Env, t: seq<Call>)
    requires forall h, c :: env.accepts(h, c)
    requires forall h, c :: env.search(h, c).Listed?
    ensures ReconcileAll(s, user, groups, env, t).status == Pass
    ensures Interleaved(ReconcileAll(s, user, groups, env, t).trace, t, GroupSearch(s.config), groups, user.entityName)
    decreases |groups|
  {
    if groups == [] {
      assert t[..|t|] == t;
    } else {
      var n := |groups| - 1;
      ReconcileAllSucceeds(s, user, groups[..n], env, t);
      var r := ReconcileAll(s, user, groups[..n], env, t);
      ReconcileStepAccepted(s, user, groups[n], env, r.trace);
      InterleavedSnoc(r.trace, t, GroupSearch(s.config), groups, user.entityName);
    }
  }

  /** With every lookup failing in one of the caught ways, reconciliation succeeds after one
      lookup per group and issues no update. */
  lemma {:induction false} ReconcileAllSwallows(s: Settings, user: Entity, groups: seq<string>, env: Env, t: seq<Call>)
    requires forall h, c :: Swallowed(env.search(h, c))
    ensures var r := ReconcileAll(s, user, groups, env, t);
      && r.status == Pass
      && |r.trace| == |t| + |groups|
      && r.trace[..|t|] == t
      && forall i :: |t| <= i < |r.trace| ==> r.trace[i] == GroupSearch(s.config)
    decreases |groups|
  {
    if groups != [] {
      var n := |groups| - 1;
      ReconcileAllSwallows(s, user, groups[..n], env, t);
      var r := ReconcileAll(s, user, groups[..n], env, t);
      ReconcileStepTrace(s, user, groups[n], env, r.trace);
    }
  }

  /** A reconciliation run fails only with an uncaught lookup failure or a wrapped rejection
      of the membership update of one of its groups. */
  lemma {:induction false} ReconcileAllFailures(s: Settings, user: Entity, groups: seq<string>, env: Env, t: seq<Call>)
    ensures var r := ReconcileAll(s, user, groups, env, t);
      r.status.Fail? ==> ReconcileCause(s, user, groups, r.status.error)
    decreases |groups|
  {
    if groups != [] {
      var n := |groups| - 1;
      var front := groups[..n];
      ReconcileAllFailures(s, user, front, env, t);
      var r := ReconcileAll(s, user, front, env, t);
      if r.status.Fail? {
        if r.status.error != SearchFault(GroupSearch(s.config)) {
          var i :| 0 <= i < |front| &&
            r.status.error == IdentityProvisioningException(UPDATE_GROUP_FAILED, ClientFault(MembershipUpdate(front[i], user.entityName)));
          assert front[i] == groups[i];
        }
      } else {
        ReconcileStepTrace(s, user, groups[n], env, r.trace);
        var search := GroupSearch(s.config);
        if env.search(r.trace, search).Listed? && !env.accepts(r.trace + [search], MembershipUpdate(groups[n], user.entityName)) {
          assert ReconcileCause(s, user, groups, ReconcileAll(s, user, groups, env, t).status.error);
        }
      }
    }
  }

  /** Creating a user with every call accepted: the user create first, then for every value
      of the new-group claim, in enumeration order, a lookup and a membership update. */
  lemma CreateUserThenJoinGroups(s: Settings, e: Entity, env: Env, t: seq<Call>)
    requires e.entityType == UserEntity && e.operation == Post && !(e.jitProvisioning && !s.jitEnabled)
    requires forall h, c :: env.accepts(h, c)
    requires forall h, c :: env.search(h, c).Listed?
    ensures Provision(s, Some(e), env, t).result == Success(None)
    ensures Interleaved(Provision(s, Some(e), env, t).trace,
      t + [Remote(ProvisionCreateUser, CreateUserObject(s.config, e.attributes), HttpPost, None)],
      GroupSearch(s.config), NewGroupValues(e.attributes), e.entityName)
  {
    var call := Remote(ProvisionCreateUser, CreateUserObject(s.config, e.attributes), HttpPost, None);
    ReconcileAllSucceeds(s, e, NewGroupValues(e.attributes), env, t + [call]);
    var r := ReconcileAll(s, e, NewGroupValues(e.attributes), env, t + [call]);
    assert Issue(env, t, call, CREATE_USER_FAILED) == Step(Pass, t + [call]);
    assert CreateUserStep(s, e, env, t) == r;
    assert Dispatch(s, e, env, t) == r;
  }

  /** createUser for a user whose new-group claim lists one group, when the create is
      accepted, the lookup answered and the membership update accepted: it passes after
      exactly those three calls, in that order. */
  lemma CreateUserJoinsOneGroup(s: Settings, e: Entity, group: string, env: Env, t: seq<Call>)
    requires NewGroupValues(e.attributes) == [group]
    requires env.accepts(t, Remote(ProvisionCreateUser, CreateUserObject(s.config, e.attributes), HttpPost, None))
    requires env.search(t + [Remote(ProvisionCreateUser, CreateUserObject(s.config, e.attributes), HttpPost, None)], GroupSearch(s.config)).Listed?
    requires env.accepts(t + [Remote(ProvisionCreateUser, CreateUserObject(s.config, e.attributes), HttpPost, None)] + [GroupSearch(s.config)],
      MembershipUpdate(group, e.entityName))
    ensures CreateUserStep(s, e, env, t) == Step(Pass,
      t + [ Remote(ProvisionCreateUser, CreateUserObject(s.config, e.attributes), HttpPost, None),
            GroupSearch(s.config), MembershipUpdate(group, e.entityName) ])
  {
    var call := Remote(ProvisionCreateUser, CreateUserObject(s.config, e.attributes), HttpPost, None);
    var tail := [GroupSearch(s.config), MembershipUpdate(group, e.entityName)];
    ReconcileStepAccepted(s, e, group, env, t + [call]);
    assert [group][..0] == [];
    assert ReconcileAll(s, e, [group], env, t + [call]) == Step(Pass, t + [call] + tail);
    assert t + [call] + tail == t + [call, tail[0], tail[1]];
  }

  /** Failures of the lookup of the caught kinds are only logged: the user create still
      succeeds, and only the lookups follow it. */
  lemma LookupFailureIsolated(s: Settings, e: Entity, env: Env, t: seq<Call>)
    requires e.entityType == UserEntity && e.operation == Post && !(e.jitProvisioning && !s.jitEnabled)
    requires env.accepts(t, Remote(ProvisionCreateUser, CreateUserObject(s.config, e.attributes), HttpPost, None))
    requires forall h, c :: Swallowed(env.search(h, c))
    ensures var r := Provision(s, Some(e), env, t);
      && r.result == Success(None)
      && |r.trace| == |t| + 1 + |NewGroupValues(e.attributes)|
      && r.trace[..|t| + 1] == t + [Remote(ProvisionCreateUser, CreateUserObject(s.config, e.attributes), HttpPost, None)]
      && forall i :: |t| + 1 <= i < |r.trace| ==> r.trace[i] == GroupSearch(s.config)
  {
    var call := Remote(ProvisionCreateUser, CreateUserObject(s.config, e.attributes), HttpPost, None);
    ReconcileAllSwallows(s, e, NewGroupValues(e.attributes), env, t + [call]);
  }

  /** A failed user create throws one IdentityProvisioningException whose cause is the
      rejected create, an uncaught lookup failure, or the exception of the nested group
      update for one of the new groups. */
  lemma CreateUserFailures(s: Settings, e: Entity, env: Env, t: seq<Call>)
    ensures var r := CreateUserStep(s, e, env, t);
      r.status.Fail? ==>
        && r.status.error.IdentityProvisioningException?
        && r.status.error.message == CREATE_USER_FAILED
        && (|| r.status.error.cause == ClientFault(Remote(ProvisionCreateUser, CreateUserObject(s.config, e.attributes), HttpPost, None))
            || ReconcileCause(s, e, NewGroupValues(e.attributes), r.status.error.cause))
  {
    var call := Remote(ProvisionCreateUser, CreateUserObject(s.config, e.attributes), HttpPost, None);
    ReconcileAllFailures(s, e, NewGroupValues(e.attributes), env, t + [call]);
  }

  /** A rejected user create throws at once: the exception wraps the rejected create and no
      lookup follows it. */
  lemma CreateUserRejected(s: Settings, e: Entity, env: Env, t: seq<Call>)
    requires e.entityType == UserEntity && e.operation == Post && !(e.jitProvisioning && !s.jitEnabled)
    requires !env.accepts(t, Remote(ProvisionCreateUser, CreateUserObject(s.config, e.attributes), HttpPost, None))
    ensures var create := Remote(ProvisionCreateUser, CreateUserObject(s.config, e.attributes), HttpPost, None);
      Provision(s, Some(e), env, t) == Provisioned(Failure(IdentityProvisioningException(CREATE_USER_FAILED, ClientFault(create))), t + [create])
  {
  }

  /** The first failing group ends reconciliation: when the groups before index `i` pass and
      the step for `groups[i]` fails, the whole run is that failed step. */
  lemma {:induction false} ReconcileAllStopsAt(s: Settings, user: Entity, groups: seq<string>, i: nat, env: Env, t: seq<Call>)
    requires i < |groups|
    requires ReconcileAll(s, user, groups[..i], env, t).status == Pass
    requires ReconcileStep(s, user, groups[i], env, ReconcileAll(s, user, groups[..i], env, t).trace).status.Fail?
    ensures ReconcileAll(s, user, groups, env, t) == ReconcileStep(s, user, groups[i], env, ReconcileAll(s, user, groups[..i], env, t).trace)
    decreases |groups|
  {
    var n := |groups| - 1;
    if n == i {
      assert groups[..n] == groups[..i];
    } else {
      var front := groups[..n];
      assert front[..i] == groups[..i] && front[i] == groups[i];
      ReconcileAllStopsAt(s, user, front, i, env, t);
    }
  }

  /** A failure while joining a new group is not swallowed: when the groups before index `i`
      pass and the lookup for `groups[i]` fails unchecked, or its membership update is
      rejected, createUser throws "Error while creating the user" with that failure as its
      cause, and nothing follows the failing call. */
  lemma CreateUserGroupFailure(s: Settings, e: Entity, i: nat, env: Env, t: seq<Call>)
    requires e.entityType == UserEntity && e.operation == Post && !(e.jitProvisioning && !s.jitEnabled)
    requires env.accepts(t, Remote(ProvisionCreateUser, CreateUserObject(s.config, e.attributes), HttpPost, None))
    requires i < |NewGroupValues(e.attributes)|
    requires ReconcileAll(s, e, NewGroupValues(e.attributes)[..i], env,
      t + [Remote(ProvisionCreateUser, CreateUserObject(s.config, e.attributes), HttpPost, None)]).status == Pass
    ensures var groups := NewGroupValues(e.attributes);
      var create := Remote(ProvisionCreateUser, CreateUserObject(s.config, e.attributes), HttpPost, None);
      var before := ReconcileAll(s, e, groups[..i], env, t + [create]).trace;
      var search := GroupSearch(s.config);
      var update := MembershipUpdate(groups[i], e.entityName);
      var r := Provision(s, Some(e), env, t);
      && (env.search(before, search).UncheckedFailure? ==>
            r == Provisioned(Failure(IdentityProvisioningException(CREATE_USER_FAILED, SearchFault(search))), before + [search]))
      && (env.search(before, search).Listed? && !env.accepts(before + [search], update) ==>
            r == Provisioned(Failure(IdentityProvisioningException(CREATE_USER_FAILED,
              IdentityProvisioningException(UPDATE_GROUP_FAILED, ClientFault(update)))), before + [search, update]))
  {
    var groups := NewGroupValues(e.attributes);
    var create := Remote(ProvisionCreateUser, CreateUserObject(s.config, e.attributes), HttpPost, None);
    var before := ReconcileAll(s, e, groups[..i], env, t + [create]).trace;
    var search := GroupSearch(s.config);
    ReconcileStepTrace(s, e, groups[i], env, before);
    if env.search(before, search).UncheckedFailure? || (env.search(before, search).Listed? && !env.accepts(before + [search], MembershipUpdate(groups[i], e.entityName))) {
      ReconcileAllStopsAt(s, e, groups, i, env, t + [create]);
      assert Issue(env, t, create, CREATE_USER_FAILED) == Step(Pass, t + [create]);
    }
  }

  // ---- Structural facts the connector's loops rely on.

  /** Reconciling one more group is one more reconciler step, unless a failure came first. */
  lemma ReconcileAllSnoc(s: Settings, user: Entity, groups: seq<string>, g: string, env: Env, t: seq<Call>)
    ensures var r := ReconcileAll(s, user, groups, env, t);
      ReconcileAll(s, user, groups + [g], env, t) == if r.status.Fail? then r else ReconcileStep(s, user, g, env, r.trace)
  {
    assert (groups + [g])[..|groups|] == groups;
  }

  /** The new-group values of a concatenation of entry lists are the concatenation of theirs. */
  lemma {:induction false} NewGroupValuesAppend(a: seq<Attribute>, b: seq<Attribute>)
    ensures NewGroupValues(a + b) == NewGroupValues(a) + NewGroupValues(b)
    decreases |b|
  {
    if b == [] {
      assert a + b == a;
    } else {
      var n := |b| - 1;
      NewGroupValuesAppend(a, b[..n]);
      assert (a + b)[..|a + b| - 1] == a + b[..n];
    }
  }

  /** The new-group values of the first i + 1 entries extend those of the first i. */
  lemma NewGroupValuesStep(attrs: seq<Attribute>, i: nat)
    requires i < |attrs|
    ensures NewGroupValues(attrs[..i + 1]) ==
      NewGroupValues(attrs[..i]) + (if attrs[i].claimUri == NEW_GROUP_CLAIM_URI then attrs[i].values else [])
  {
    assert attrs[..i + 1][..i] == attrs[..i];
  }

  /** One more claim entry in createUser's outer loop, after the earlier entries passed: a
      new-group entry reconciles its values from where the earlier ones left off; any other
      entry changes nothing. */
  lemma NewGroupsEntry(s: Settings, user: Entity, attrs: seq<Attribute>, i: nat, env: Env, t: seq<Call>)
    requires i < |attrs|
    requires ReconcileAll(s, user, NewGroupValues(attrs[..i]), env, t).status == Pass
    ensures var r := ReconcileAll(s, user, NewGroupValues(attrs[..i]), env, t);
      ReconcileAll(s, user, NewGroupValues(attrs[..i + 1]), env, t)
        == if attrs[i].claimUri == NEW_GROUP_CLAIM_URI then ReconcileAll(s, user, attrs[i].values, env, r.trace) else r
  {
    NewGroupValuesStep(attrs, i);
    var more := if attrs[i].claimUri == NEW_GROUP_CLAIM_URI then attrs[i].values else [];
    ReconcileAllAppend(s, user, NewGroupValues(attrs[..i]), more, env, t);
    assert NewGroupValues(attrs[..i]) + [] == NewGroupValues(attrs[..i]);
  }

  /** A failure in the entries before index `i` is the failure of the whole outer loop. */
  lemma NewGroupsFailEarly(s: Settings, user: Entity, attrs: seq<Attribute>, i: nat, env: Env, t: seq<Call>)
    requires i <= |attrs|
    requires ReconcileAll(s, user, NewGroupValues(attrs[..i]), env, t).status.Fail?
    ensures ReconcileAll(s, user, NewGroupValues(attrs), env, t) == ReconcileAll(s, user, NewGroupValues(attrs[..i]), env, t)
  {
    assert attrs == attrs[..i] + attrs[i..];
    NewGroupValuesAppend(attrs[..i], attrs[i..]);
    ReconcileAllAppend(s, user, NewGroupValues(attrs[..i]), NewGroupValues(attrs[i..]), env, t);
  }

  /** Reconciling `groups + more` is reconciling `groups` and then, unless that failed,
      reconciling `more` from where it left off. */
  lemma {:induction false} ReconcileAllAppend(s: Settings, user: Entity, groups: seq<string>, more: seq<string>, env: Env, t: seq<Call>)
    ensures var r := ReconcileAll(s, user, groups, env, t);
      ReconcileAll(s, user, groups + more, env, t) == if r.status.Fail? then r else ReconcileAll(s, user, more, env, r.trace)
    decreases |more|
  {
    if more == [] {
      assert groups + more == groups;
    } else {
      var n := |more| - 1;
      ReconcileAllAppend(s, user, groups, more[..n], env, t);
      assert groups + more == (groups + more[..n]) + [more[n]];
      ReconcileAllSnoc(s, user, groups + more[..n], more[n], env, t);
      var r := ReconcileAll(s, user, groups, env, t);
      if r.status.Pass? {
        ReconcileAllSnoc(s, user, more[..n], more[n], env, r.trace);
        assert more[..n] + [more[n]] == more;
      }
    }
  }
}
