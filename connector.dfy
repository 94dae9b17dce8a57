/** The connector object: the state `init` fills in, the trace of outbound calls, and one
    method per operation of the connector, each proved to issue exactly the calls and to
    return or throw exactly what the translation functions say. */
module Connector {
  import opened Wrappers
  import opened ScimTypes
  import opened Claims
  import opened ProviderConfig
  import opened Translation
  import opened TranslationProperties

  class ScimProvisioningConnector {
    /** The SCIM provider's property map. */
    var config: map<string, string>
    var userStoreDomain: Option<string>
    /** The JIT flag inherited from the base connector. */
    var jitEnabled: bool
    /** The outbound calls issued so far, in order. */
    var trace: seq<Call>

    function State(): Settings
      reads this`config, this`userStoreDomain, this`jitEnabled
    {
      Settings(config, userStoreDomain, jitEnabled)
    }

    constructor ()
      ensures State() == Settings(map[], None, false) && trace == []
    {
      config, userStoreDomain, jitEnabled, trace := map[], None, false, [];
    }

    function IsJitProvisioningEnabled(): bool
      reads this`jitEnabled
    {
      jitEnabled
    }

    /** getUserStoreDomainName */
    method GetUserStoreDomainName() returns (d: Option<string>)
      ensures d == userStoreDomain
    {
      d := userStoreDomain;
    }

    /** init */
    method Init(props: Option<seq<Property>>)
      modifies this`config, this`userStoreDomain, this`jitEnabled
      ensures State() == InitSettings(old(State()), props)
    {
      config := map[];
      if props.Some? && |props.value| > 0 {
        var ps := props.value;
        ghost var s0 := State();
        for i := 0 to |ps|
          invariant State() == Ingest(s0, ps[..i])
        {
          var p := ps[i];
          if p.name == Some(SCIM_USER_EP) {
            PopulateScimProvider(p, ELEMENT_NAME_USER_ENDPOINT);
          } else if p.name == Some(SCIM_GROUP_EP) {
            PopulateScimProvider(p, ELEMENT_NAME_GROUP_ENDPOINT);
          } else if p.name == Some(SCIM_USERNAME) {
            PopulateScimProvider(p, ELEMENT_NAME_USERNAME);
          } else if p.name == Some(SCIM_PASSWORD) {
            PopulateScimProvider(p, ELEMENT_NAME_PASSWORD);
          } else if p.name == Some(SCIM_USERSTORE_DOMAIN) {
            userStoreDomain := if p.value.Some? then p.value else p.defaultValue;
          } else if p.name == Some(SCIM_ENABLE_PASSWORD_PROVISIONING) {
            PopulateScimProvider(p, SCIM_ENABLE_PASSWORD_PROVISIONING);
          } else if p.name == Some(SCIM_DEFAULT_PASSWORD) {
            PopulateScimProvider(p, SCIM_DEFAULT_PASSWORD);
          }
          if p.name == Some(JIT_PROVISIONING_ENABLED) && p.value == Some("1") {
            jitEnabled := true;
          }
          assert ps[..i + 1][..i] == ps[..i];
        }
        assert ps[..|ps|] == ps;
      }
    }

    /** populateSCIMProvider */
    method PopulateScimProvider(p: Property, key: string)
      modifies this`config
      ensures config == Populate(old(config), p, key)
    {
      if p.value.Some? && |p.value.value| > 0 {
        config := config[key := p.value.value];
      } else if p.defaultValue.Some? {
        config := config[key := p.defaultValue.value];
      }
    }

    /** A call to the provisioning client, and the catch block of the operation around it
        that wraps a failure with `message`. */
    method Send(call: Call, message: string, env: Env) returns (st: Outcome<Fault>)
      modifies this`trace
      ensures Step(st, trace) == Issue(env, old(trace), call, message)
    {
      var accepted := env.accepts(trace, call);
      trace := trace + [call];
      if accepted {
        st := Pass;
      } else {
        st := Fail(IdentityProvisioningException(message, ClientFault(call)));
      }
    }

    /** provision */
    method Provision(entity: Option<Entity>, env: Env) returns (r: Result<Option<ProvisionedIdentifier>, Fault>)
      modifies this`trace
      ensures Provisioned(r, trace) == Translation.Provision(State(), entity, env, old(trace))
    {
      if entity.Some? {
        var e := entity.value;
        if e.jitProvisioning && !IsJitProvisioningEnabled() {
          return Success(None);
        }
        var st: Outcome<Fault> := Pass;
        if e.entityType == UserEntity {
          if e.operation == Delete {
            st := DeleteUser(e, env);
          } else if e.operation == Post {
            st := CreateUser(e, env);
          } else if e.operation == Put {
            st := UpdateUser(e, Put, env);
          } else if e.operation == Patch {
            st := UpdateUser(e, Patch, env);
          }
        } else if e.entityType == GroupEntity {
          if e.operation == Delete {
            st := DeleteGroup(e, env);
          } else if e.operation == Post {
            st := CreateGroup(e, env);
          } else if e.operation == Put {
            st := UpdateGroup(e, env);
          } else if e.operation == Patch {
            st := UpdateGroup(e, env);
          }
        }
        if st.Fail? {
          return Failure(st.error);
        }
      }
      return Success(None);
    }

    /** The first element of a name list, or null. */
    method FirstName(names: seq<string>) returns (name: Option<string>)
      ensures name == FirstOf(names)
    {
      name := None;
      if |names| > 0 {
        name := Some(names[0]);
      }
    }

    /** setUserPassword */
    method SetUserPassword(user: ScimObject, e: Entity) returns (u: ScimObject)
      requires user.ScimUser?
      ensures u == WithPassword(config, e.attributes, user)
    {
      u := user;
      if GetProperty(config, SCIM_ENABLE_PASSWORD_PROVISIONING) == Some("true") {
        u := u.(password := PasswordClaim(e.attributes));
      } else if IsNotBlank(GetProperty(config, SCIM_DEFAULT_PASSWORD)) {
        u := u.(password := GetProperty(config, SCIM_DEFAULT_PASSWORD));
      }
    }

    /** updateUser */
    method UpdateUser(e: Entity, op: Operation, env: Env) returns (st: Outcome<Fault>)
      modifies this`trace
      ensures Step(st, trace) == UpdateUserStep(State(), e, op, env, old(trace))
    {
      var userName := FirstName(UserNames(e.attributes));
      var singleValued := SingleValuedClaims(e.attributes);
      var user: ScimObject;
      if |singleValued| > 0 {
        user := ScimUser(Mapped(singleValued), None, None);
      } else {
        user := ScimUser(Minimal, None, None);
      }
      user := user.(userName := userName);
      user := SetUserPassword(user, e);
      if op == Put {
        st := Send(Remote(ProvisionUpdateUser, user, HttpPost, None), CREATE_USER_FAILED, env);
      } else if op == Patch {
        st := Send(Remote(ProvisionPatchUser, user, HttpPost, None), CREATE_USER_FAILED, env);
      } else {
        st := Pass;
      }
    }

    /** createUser: the remote create, then the reconciliation of every new group; a failure
        after the create is wrapped by createUser's catch block. */
    method CreateUser(e: Entity, env: Env) returns (st: Outcome<Fault>)
      modifies this`trace
      ensures Step(st, trace) == CreateUserStep(State(), e, env, old(trace))
    {
      var userName := FirstName(UserNames(e.attributes));
      var user := ScimUser(Mapped(SingleValuedClaims(e.attributes)), None, None);
      user := user.(userName := userName);
      user := SetUserPassword(user, e);
      st := Send(Remote(ProvisionCreateUser, user, HttpPost, None), CREATE_USER_FAILED, env);
      if st.Pass? {
        var joined := JoinNewGroups(e, env);
        if joined.Fail? {
          st := Fail(IdentityProvisioningException(CREATE_USER_FAILED, joined.error));
        }
      }
    }

    /** The outer loop of createUser over the claim entries: the values of every
        new-group entry are reconciled, until one reconciliation throws. */
    method JoinNewGroups(e: Entity, env: Env) returns (st: Outcome<Fault>)
      modifies this`trace
      ensures Step(st, trace) == ReconcileAll(State(), e, NewGroupValues(e.attributes), env, old(trace))
    {
      ghost var t1 := trace;
      ghost var s := State();
      var attrs := e.attributes;
      var i := 0;
      while i < |attrs|
        invariant 0 <= i <= |attrs|
        invariant Step(Pass, trace) == ReconcileAll(s, e, NewGroupValues(attrs[..i]), env, t1)
      {
        var entry := attrs[i];
        NewGroupsEntry(s, e, attrs, i, env, t1);
        if entry.claimUri == NEW_GROUP_CLAIM_URI {
          var r := JoinGroups(e, entry.values, env);
          if r.Fail? {
            NewGroupsFailEarly(s, e, attrs, i + 1, env, t1);
            return r;
          }
        }
        i := i + 1;
      }
      assert attrs[..|attrs|] == attrs;
      return Pass;
    }

    /** The inner loop of createUser: updateGroupsOfUser once per group name, in order,
        until one throws. */
    method JoinGroups(e: Entity, groups: seq<string>, env: Env) returns (st: Outcome<Fault>)
      modifies this`trace
      ensures Step(st, trace) == ReconcileAll(State(), e, groups, env, old(trace))
    {
      ghost var t1 := trace;
      for j := 0 to |groups|
        invariant Step(Pass, trace) == ReconcileAll(State(), e, groups[..j], env, t1)
      {
        ReconcileAllSnoc(State(), e, groups[..j], groups[j], env, t1);
        assert groups[..j + 1] == groups[..j] + [groups[j]];
        var r := UpdateGroupsOfUser(e, groups[j], env);
        if r.Fail? {
          ReconcileAllAppend(State(), e, groups[..j + 1], groups[j + 1..], env, t1);
          assert groups[..j + 1] + groups[j + 1..] == groups;
          return r;
        }
      }
      assert groups[..|groups|] == groups;
      return Pass;
    }

    /** deleteUser */
    method DeleteUser(e: Entity, env: Env) returns (st: Outcome<Fault>)
      modifies this`trace
      ensures Step(st, trace) == DeleteUserStep(e, env, old(trace))
    {
      var userName := FirstName(UserNames(e.attributes));
      var user := ScimUser(Minimal, userName, None);
      st := Send(Remote(ProvisionDeleteUser, user, HttpDelete, None), DELETE_USER_FAILED, env);
    }

    /** The member loop of createGroup and updateGroup: one `display` member appended per
        username, in order. */
    method AddMembers(group: ScimObject, userList: seq<string>) returns (g: ScimObject)
      requires group.ScimGroup?
      ensures g == group.(members := group.members + Members(userList))
    {
      g := group;
      for k := 0 to |userList|
        invariant g == group.(members := group.members + Members(userList[..k]))
      {
        assert userList[..k + 1][..k] == userList[..k];
        g := g.(members := g.members + [map[DISPLAY := userList[k]]]);
      }
      assert userList[..|userList|] == userList;
    }

    /** createGroup */
    method CreateGroup(e: Entity, env: Env) returns (st: Outcome<Fault>)
      modifies this`trace
      ensures Step(st, trace) == CreateGroupStep(e, env, old(trace))
    {
      var groupName := FirstName(GroupNames(e.attributes));
      var group := ScimGroup(groupName, []);
      group := AddMembers(group, UserNames(e.attributes));
      assert [] + Members(UserNames(e.attributes)) == Members(UserNames(e.attributes));
      st := Send(Remote(ProvisionCreateGroup, group, HttpPost, None), CREATE_GROUP_FAILED, env);
    }

    /** deleteGroup */
    method DeleteGroup(e: Entity, env: Env) returns (st: Outcome<Fault>)
      modifies this`trace
      ensures Step(st, trace) == DeleteGroupStep(e, env, old(trace))
    {
      var groupName := FirstName(GroupNames(e.attributes));
      var group := ScimGroup(groupName, []);
      st := Send(Remote(ProvisionDeleteGroup, group, HttpDelete, None), DELETE_GROUP_FAILED, env);
    }

    /** updateGroup */
    method UpdateGroup(e: Entity, env: Env) returns (st: Outcome<Fault>)
      modifies this`trace
      ensures Step(st, trace) == UpdateGroupStep(e, env, old(trace))
    {
      var groupName := FirstName(GroupNames(e.attributes));
      var group := ScimGroup(groupName, []);
      group := AddMembers(group, UserNames(e.attributes));
      assert [] + Members(UserNames(e.attributes)) == Members(UserNames(e.attributes));
      var oldGroupName := AttributeValue(e.attributes, OLD_GROUP_NAME_CLAIM_URI);
      var info: Option<map<string, InfoValue>> := None;
      if oldGroupName.Some? && oldGroupName.value != "" {
        info := Some(map[IS_ROLE_NAME_CHANGED_ON_UPDATE := Flag(true), OLD_GROUP_NAME := Text(oldGroupName.value)]);
      }
      if e.operation == Put {
        st := Send(Remote(ProvisionUpdateGroup, group, HttpPut, info), UPDATE_GROUP_FAILED, env);
      } else if e.operation == Patch {
        st := Send(Remote(ProvisionPatchGroup, group, HttpPut, info), UPDATE_GROUP_FAILED, env);
      } else {
        st := Pass;
      }
    }

    /** updateGroupsOfUser */
    method UpdateGroupsOfUser(user: Entity, groupName: string, env: Env) returns (st: Outcome<Fault>)
      modifies this`trace
      ensures Step(st, trace) == ReconcileStep(State(), user, groupName, env, old(trace))
    {
      var entity := MembershipEntity(user.entityName, groupName);
      var contentType := GetProperty(config, CONTENT_TYPE_HEADER);
      if contentType.None? {
        contentType := Some(APPLICATION_JSON);
      }
      var request := Search(GetProperty(config, ELEMENT_NAME_GROUP_ENDPOINT), GROUP_QUERY,
        GetProperty(config, ELEMENT_NAME_USERNAME), GetProperty(config, ELEMENT_NAME_PASSWORD), contentType.value);
      var response := env.search(trace, request);
      trace := trace + [request];
      match response
      case Listed(ids) =>
        var groupId: Option<string> := None;
        for k := 0 to |ids|
          invariant groupId == KeepLast(None, ids[..k])
        {
          groupId := ids[k];
        }
        assert ids[..|ids|] == ids;
        entity := entity.(identifier := Some(ProvisionedIdentifier(groupId)));
        st := UpdateGroup(entity, env);
      case UncheckedFailure =>
        st := Fail(SearchFault(request));
      case _ =>
        st := Pass;
    }
  }
}
