/** Event-to-remote-operation translation, stated as functions that thread the trace of
    outbound calls: the remote-object builders, the password and rename-hint rules, the
    group-membership reconciler and the dispatcher. */
module Translation {
  import opened Wrappers
  import opened ScimTypes
  import opened Claims
  import opened ProviderConfig

  // ---- Password policy (setUserPassword).

  /** Character.isWhitespace as of Java 7 and 8 (Unicode 6.0 to 6.2, where U+180E is a
      space separator). */
  predicate IsJavaWhitespace(c: char) {
    c == ' ' || c == '\t' || c == '\n' || c == '\U{000B}' || c == '\U{000C}' || c == '\r'
    || ('\U{001C}' <= c <= '\U{001F}')
    || c == '\U{1680}' || c == '\U{180E}' || ('\U{2000}' <= c <= '\U{2006}') || ('\U{2008}' <= c <= '\U{200A}')
    || c == '\U{2028}' || c == '\U{2029}' || c == '\U{205F}' || c == '\U{3000}'
  }

  /** StringUtils.isNotBlank: non-null, with at least one non-whitespace character. */
  predicate IsNotBlank(s: Option<string>) {
    s.Some? && exists i :: 0 <= i < |s.value| && !IsJavaWhitespace(s.value[i])
  }

  /** setUserPassword: with password provisioning enabled (exactly "true") the password
      comes from the entity's claims; else a non-blank default password is used; else the
      user's password is left as it is. */
  function WithPassword(config: map<string, string>, attrs: seq<Attribute>, user: ScimObject): ScimObject
    requires user.ScimUser?
  {
    if GetProperty(config, SCIM_ENABLE_PASSWORD_PROVISIONING) == Some("true") then
      user.(password := PasswordClaim(attrs))
    else if IsNotBlank(GetProperty(config, SCIM_DEFAULT_PASSWORD)) then
      user.(password := GetProperty(config, SCIM_DEFAULT_PASSWORD))
    else user
  }

  // ---- Remote-object builders.

  /** The user createUser sends: always built by the attribute mapper from the single-valued
      claims, with the first username and the password policy applied. */
  function CreateUserObject(config: map<string, string>, attrs: seq<Attribute>): ScimObject {
    WithPassword(config, attrs, ScimUser(Mapped(SingleValuedClaims(attrs)), FirstOf(UserNames(attrs)), None))
  }

  /** The user updateUser sends: as for create, but a minimal user when there are no
      single-valued claims. */
  function UpdateUserObject(config: map<string, string>, attrs: seq<Attribute>): ScimObject {
    var singleValued := SingleValuedClaims(attrs);
    var source := if |singleValued| > 0 then Mapped(singleValued) else Minimal;
    WithPassword(config, attrs, ScimUser(source, FirstOf(UserNames(attrs)), None))
  }

  /** The user deleteUser sends: the username only. */
  function DeleteUserObject(attrs: seq<Attribute>): ScimObject {
    ScimUser(Minimal, FirstOf(UserNames(attrs)), None)
  }

  /** One member reference, keyed by `display`. */
  function Member(userName: string): map<string, string> {
    map[DISPLAY := userName]
  }

  /** The member list built by appending one member per username, in list order. */
  function Members(names: seq<string>): (r: seq<map<string, string>>)
    ensures |r| == |names|
    ensures forall i :: 0 <= i < |names| ==> r[i] == map[DISPLAY := names[i]]
    decreases |names|
  {
    if names == [] then [] else Members(names[..|names| - 1]) + [Member(names[|names| - 1])]
  }

  /** The group createGroup and updateGroup send: the first group name and one member per
      username. */
  function GroupObject(attrs: seq<Attribute>): ScimObject {
    ScimGroup(FirstOf(GroupNames(attrs)), Members(UserNames(attrs)))
  }

  /** The group deleteGroup sends: the display name only. */
  function DeleteGroupObject(attrs: seq<Attribute>): ScimObject {
    ScimGroup(FirstOf(GroupNames(attrs)), [])
  }

  /** The side-channel information of updateGroup: a rename hint when the old group name is
      non-empty, otherwise none. */
  function RenameInfo(oldGroupName: Option<string>): Option<map<string, InfoValue>> {
    if oldGroupName.None? || oldGroupName.value == "" then None
    else Some(map[IS_ROLE_NAME_CHANGED_ON_UPDATE := Flag(true), OLD_GROUP_NAME := Text(oldGroupName.value)])
  }

  // ---- Remote calls.

  /** A provisioning-client call: recorded in the trace; when the remote side rejects it,
      the operation throws an IdentityProvisioningException with the given message. */
  function Issue(env: Env, t: seq<Call>, call: Call, message: string): Step {
    if env.accepts(t, call) then Step(Pass, t + [call])
    else Step(Fail(IdentityProvisioningException(message, ClientFault(call))), t + [call])
  }

  /** deleteUser */
  function DeleteUserStep(e: Entity, env: Env, t: seq<Call>): Step {
    Issue(env, t, Remote(ProvisionDeleteUser, DeleteUserObject(e.attributes), HttpDelete, None), DELETE_USER_FAILED)
  }

  /** updateUser: the client is built with the POST method code; PUT calls update, PATCH calls
      patch. Its failure message is the one createUser uses. */
  function UpdateUserStep(s: Settings, e: Entity, op: Operation, env: Env, t: seq<Call>): Step {
    var user := UpdateUserObject(s.config, e.attributes);
    if op == Put then Issue(env, t, Remote(ProvisionUpdateUser, user, HttpPost, None), CREATE_USER_FAILED)
    else if op == Patch then Issue(env, t, Remote(ProvisionPatchUser, user, HttpPost, None), CREATE_USER_FAILED)
    else Step(Pass, t)
  }

  /** createGroup */
  function CreateGroupStep(e: Entity, env: Env, t: seq<Call>): Step {
    Issue(env, t, Remote(ProvisionCreateGroup, GroupObject(e.attributes), HttpPost, None), CREATE_GROUP_FAILED)
  }

  /** deleteGroup */
  function DeleteGroupStep(e: Entity, env: Env, t: seq<Call>): Step {
    Issue(env, t, Remote(ProvisionDeleteGroup, DeleteGroupObject(e.attributes), HttpDelete, None), DELETE_GROUP_FAILED)
  }

  /** updateGroup: the entity's own operation picks update (PUT) or patch (PATCH). */
  function UpdateGroupStep(e: Entity, env: Env, t: seq<Call>): Step {
    var group := GroupObject(e.attributes);
    var info := RenameInfo(AttributeValue(e.attributes, OLD_GROUP_NAME_CLAIM_URI));
    if e.operation == Put then Issue(env, t, Remote(ProvisionUpdateGroup, group, HttpPut, info), UPDATE_GROUP_FAILED)
    else if e.operation == Patch then Issue(env, t, Remote(ProvisionPatchGroup, group, HttpPut, info), UPDATE_GROUP_FAILED)
    else Step(Pass, t)
  }

  // ---- Group-membership reconciler (updateGroupsOfUser).

  /** The synthetic GROUP/PUT entity that adds `userName` to `groupName`. */
  function MembershipEntity(userName: string, groupName: string): Entity {
    Entity(GroupEntity, groupName, Put,
      [ Attribute(GROUP_CLAIM_URI, [groupName]),
        Attribute(USERNAME_CLAIM_URI, [userName]),
        Attribute(NEW_USER_CLAIM_URI, [userName]),
        Attribute(DELETED_USER_CLAIM_URI, []) ],
      None, false)
  }

  /** The group lookup: a GET on the group endpoint with the fixed query, authenticated with
      the admin credentials, decoded in the configured content type or JSON. */
  function GroupSearch(config: map<string, string>): Call {
    Search(GetProperty(config, ELEMENT_NAME_GROUP_ENDPOINT), GROUP_QUERY,
      GetProperty(config, ELEMENT_NAME_USERNAME), GetProperty(config, ELEMENT_NAME_PASSWORD),
      GetProperty(config, CONTENT_TYPE_HEADER).GetOr(APPLICATION_JSON))
  }

  /** The loop over the returned groups: every id overwrites the previous one, so the
      result is the last id, or `acc` when there is none. */
  function KeepLast(acc: Option<string>, ids: seq<Option<string>>): (r: Option<string>)
    ensures ids == [] ==> r == acc
    ensures ids != [] ==> r == ids[|ids| - 1]
    decreases |ids|
  {
    if ids == [] then acc else KeepLast(ids[0], ids[1..])
  }

  /** updateGroupsOfUser: look the group up, attach the id of the last group found, and
      re-enter updateGroup. An IOException, BadRequestException or CharonException of the
      lookup is only logged; any other failure propagates. */
  function ReconcileStep(s: Settings, user: Entity, groupName: string, env: Env, t: seq<Call>): Step {
    var entity := MembershipEntity(user.entityName, groupName);
    var request := GroupSearch(s.config);
    var t1 := t + [request];
    match env.search(t, request)
    case Listed(ids) =>
      UpdateGroupStep(entity.(identifier := Some(ProvisionedIdentifier(KeepLast(None, ids)))), env, t1)
    case UncheckedFailure => Step(Fail(SearchFault(request)), t1)
    case _ => Step(Pass, t1)
  }

  /** The values of every `new:claim:group` entry, in enumeration order. */
  function NewGroupValues(attrs: seq<Attribute>): seq<string>
    decreases |attrs|
  {
    if attrs == [] then []
    else
      var last := attrs[|attrs| - 1];
      NewGroupValues(attrs[..|attrs| - 1]) + (if last.claimUri == NEW_GROUP_CLAIM_URI then last.values else [])
  }

  /** The reconciler run once per group name, in order, stopping at the first failure. */
  function ReconcileAll(s: Settings, user: Entity, groups: seq<string>, env: Env, t: seq<Call>): Step
    decreases |groups|
  {
    if groups == [] then Step(Pass, t)
    else
      var r := ReconcileAll(s, user, groups[..|groups| - 1], env, t);
      if r.status.Fail? then r else ReconcileStep(s, user, groups[|groups| - 1], env, r.trace)
  }

  /** createUser: the remote create first, then one reconciliation per new group; any
      failure after the create is wrapped in one IdentityProvisioningException. */
  function CreateUserStep(s: Settings, e: Entity, env: Env, t: seq<Call>): Step {
    var call := Remote(ProvisionCreateUser, CreateUserObject(s.config, e.attributes), HttpPost, None);
    var created := Issue(env, t, call, CREATE_USER_FAILED);
    if created.status.Fail? then created
    else
      var r := ReconcileAll(s, e, NewGroupValues(e.attributes), env, created.trace);
      if r.status.Fail? then Step(Fail(IdentityProvisioningException(CREATE_USER_FAILED, r.status.error)), r.trace)
      else r
  }

  // ---- Dispatcher (provision).

  /** The decision table on (entity type, operation). */
  function Dispatch(s: Settings, e: Entity, env: Env, t: seq<Call>): Step {
    match e.entityType
    case UserEntity =>
      if e.operation == Delete then DeleteUserStep(e, env, t)
      else if e.operation == Post then CreateUserStep(s, e, env, t)
      else if e.operation == Put then UpdateUserStep(s, e, Put, env, t)
      else if e.operation == Patch then UpdateUserStep(s, e, Patch, env, t)
      else Step(Pass, t)
    case GroupEntity =>
      if e.operation == Delete then DeleteGroupStep(e, env, t)
      else if e.operation == Post then CreateGroupStep(e, env, t)
      else if e.operation == Put || e.operation == Patch then UpdateGroupStep(e, env, t)
      else Step(Pass, t)
    case OtherEntity => Step(Pass, t)
  }

  /** provision: nothing for a null entity or a JIT entity while JIT is off; otherwise the
      dispatch. The returned identifier is always null. */
  function Provision(s: Settings, entity: Option<Entity>, env: Env, t: seq<Call>): Provisioned {
    if entity.None? then Provisioned(Success(None), t)
    else if entity.value.jitProvisioning && !s.jitEnabled then Provisioned(Success(None), t)
    else
      var r := Dispatch(s, entity.value, env, t);
      match r.status
      case Pass => Provisioned(Success(None), r.trace)
      case Fail(f) => Provisioned(Failure(f), r.trace)
  }
}
