/** The entities the connector works with, the outbound calls it issues and the constants
    it compares against. Constants that the connector imports (connector constants, SCIM
    configuration constants, provisioning claim URIs) are defined in other classes of the
    connector's library; the strings below stand in for them and the proofs only rely on
    their being pairwise distinct. */
module ScimTypes {
  import opened Wrappers

  // ---- Names of the connector's provisioning properties.
  const SCIM_USER_EP := "scim-user-ep"
  const SCIM_GROUP_EP := "scim-group-ep"
  const SCIM_USERNAME := "scim-username"
  const SCIM_PASSWORD := "scim-password"
  const SCIM_USERSTORE_DOMAIN := "scim-user-store-domain"
  const SCIM_ENABLE_PASSWORD_PROVISIONING := "scim-enable-pwd-provisioning"
  const SCIM_DEFAULT_PASSWORD := "scim-default-pwd"
  /** The platform-wide property that switches on just-in-time provisioning. */
  const JIT_PROVISIONING_ENABLED := "jitProvisioningEnabled"

  // ---- Keys of the SCIM provider's property map.
  const ELEMENT_NAME_USER_ENDPOINT := "userEndpoint"
  const ELEMENT_NAME_GROUP_ENDPOINT := "groupEndpoint"
  const ELEMENT_NAME_USERNAME := "userName"
  const ELEMENT_NAME_PASSWORD := "password"
  const CONTENT_TYPE_HEADER := "Content-Type"
  const APPLICATION_JSON := "application/json"

  // ---- Claim URIs.
  const USERNAME_CLAIM_URI := "http://wso2.org/claims/username"
  const GROUP_CLAIM_URI := "http://wso2.org/claims/role"
  const PASSWORD_CLAIM_URI := "http://wso2.org/claims/password"
  const NEW_USER_CLAIM_URI := "http://wso2.org/claims/new_users"
  const DELETED_USER_CLAIM_URI := "http://wso2.org/claims/deleted_users"
  const OLD_GROUP_NAME_CLAIM_URI := "http://wso2.org/claims/old_group_name"
  /** The claim under which a newly created user lists the groups it must join
      (a literal in the connector itself). */
  const NEW_GROUP_CLAIM_URI := "org:wso2:carbon:identity:provisioning:new:claim:group"

  // ---- Payload keys.
  /** Key of a group member's display reference. */
  const DISPLAY := "display"
  /** Keys of the side-channel information attached to a group rename. */
  const IS_ROLE_NAME_CHANGED_ON_UPDATE := "IsRoleNameChangedOnUpdate"
  const OLD_GROUP_NAME := "OldGroupName"

  /** The query string of the group lookup, fixed whatever group is looked up. */
  const GROUP_QUERY := "filter=displayName%20Eq%20abc"

  // ---- Messages of the IdentityProvisioningException each operation throws.
  const CREATE_USER_FAILED := "Error while creating the user"
  const DELETE_USER_FAILED := "Error while deleting user."
  const CREATE_GROUP_FAILED := "Error while adding group."
  const DELETE_GROUP_FAILED := "Error while deleting group."
  const UPDATE_GROUP_FAILED := "Error while updating group."

  /** One configuration property; a Java null name, value or default is None. */
  datatype Property = Property(name: Option<string>, value: Option<string>, defaultValue: Option<string>)

  /** One entry of an entity's claim map: a local claim URI and its values, in order.
      An entity's attributes are the entries in the map's enumeration order. */
  datatype Attribute = Attribute(claimUri: string, values: seq<string>)

  /** OtherEntity and OtherOperation stand for every value (null included) that the
      dispatcher does not recognise. */
  datatype EntityType = UserEntity | GroupEntity | OtherEntity
  datatype Operation = Post | Put | Patch | Delete | OtherOperation

  datatype ProvisionedIdentifier = ProvisionedIdentifier(id: Option<string>)

  /** An incoming provisioning event. */
  datatype Entity = Entity(
    entityType: EntityType,
    entityName: string,
    operation: Operation,
    attributes: seq<Attribute>,
    identifier: Option<ProvisionedIdentifier>,
    jitProvisioning: bool)

  /** How a SCIM user object was obtained: an empty `new User()`, or the object the
      attribute mapper builds from the given single-valued claims. */
  datatype UserSource = Minimal | Mapped(claims: map<string, string>)

  /** The SCIM objects handed to the provisioning client. A group member is the map
      {display: username}. */
  datatype ScimObject =
    | ScimUser(source: UserSource, userName: Option<string>, password: Option<string>)
    | ScimGroup(displayName: Option<string>, members: seq<map<string, string>>)

  /** Values of the side-channel information map. */
  datatype InfoValue = Flag(flag: bool) | Text(text: string)

  /** The HTTP method code the provisioning client is constructed with. */
  datatype HttpMethod = HttpPost | HttpPut | HttpDelete

  /** The provisioning-client entry point that is called. */
  datatype RemoteOp =
    | ProvisionCreateUser | ProvisionUpdateUser | ProvisionPatchUser | ProvisionDeleteUser
    | ProvisionCreateGroup | ProvisionUpdateGroup | ProvisionPatchGroup | ProvisionDeleteGroup

  /** One outbound call, as recorded in the trace. */
  datatype Call =
    | Remote(op: RemoteOp, payload: ScimObject, httpMethod: HttpMethod, info: Option<map<string, InfoValue>>)
    | Search(endpoint: Option<string>, query: string, authUser: Option<string>, authPassword: Option<string>, format: string)

  /** What the group search yields: the ids of the decoded groups, in order, or the kind of
      exception raised while executing the request or decoding its response.
      UncheckedFailure stands for any exception other than the three the reconciler catches. */
  datatype SearchResponse =
    | Listed(groupIds: seq<Option<string>>)
    | IoFailure
    | BadRequestFailure
    | CharonFailure
    | UncheckedFailure

  /** The remote side: whether a provisioning-client call succeeds and what a search
      returns, each as a function of the calls issued before it and of the call itself. */
  datatype Env = Env(accepts: (seq<Call>, Call) -> bool, search: (seq<Call>, Call) -> SearchResponse)

  /** Exceptions: the connector's own IdentityProvisioningException wrapping a cause,
      a failure raised by the provisioning client, or an uncaught failure of the search. */
  datatype Fault =
    | IdentityProvisioningException(message: string, cause: Fault)
    | ClientFault(call: Call)
    | SearchFault(call: Call)

  /** The status of a void operation and the trace after it. */
  datatype Step = Step(status: Outcome<Fault>, trace: seq<Call>)

  /** What `provision` returns or throws, and the trace after it. */
  datatype Provisioned = Provisioned(result: Result<Option<ProvisionedIdentifier>, Fault>, trace: seq<Call>)
}
