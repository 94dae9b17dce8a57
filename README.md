# SCIM outbound provisioning connector — Dafny model

This project models the translation core of the WSO2 outbound SCIM provisioning connector,
`SCIMProvisioningConnector`. The connector receives provisioning events: a user or group
entity, an operation (POST, PUT, PATCH or DELETE) and the entity's claim values. It turns
each event into calls on a SCIM provisioning client.

The model has two layers.

- **Specification functions** (modules `ProviderConfig`, `Claims`, `Translation`):
  - Each connector operation is a pure function over the connector settings (the SCIM
    provider's property map, the user-store domain and the JIT flag).
  - An operation takes the event, an environment and the trace of outbound calls so far. It
    returns the operation's outcome and the extended trace.
  - Every outbound call is appended to the trace when it is attempted, whether the remote
    side accepts it or not.
  - The environment (`ScimTypes.Env`) gives the remote side's answers as two parameters:
    - whether a provisioning-client call succeeds;
    - what the HTTP group lookup returns: a list of group ids, or one of the failures
      `IOException`, `BadRequestException`, `CharonException`, or any other exception.
- **The connector class** (`Connector.ScimProvisioningConnector`) keeps the source's mutable
  state as fields: the provider map, `userStoreDomainName`, `jitProvisioningEnabled` and the
  trace. It has one method per Java method of the connector, with the same loops, and a few
  methods for parts of Java method bodies: `Send` (a client call and the catch block around
  it), `FirstName` (the pick of the first name), `AddMembers` (the member loop of
  `createGroup` and `updateGroup`), and `JoinNewGroups` and `JoinGroups` (the two loops of
  `createUser` over the new-group claim). `IsJitProvisioningEnabled` stands for the getter
  inherited from the base connector class. Each method is proved to leave exactly the state
  and trace that the corresponding specification function gives.

The properties of the translation are lemmas about the specification functions (module
`TranslationProperties`). They cover:

- the JIT guard and the null result;
- the dispatch table and the error-message table;
- the precedence rules of `init`;
- the password policy;
- the identifying fields;
- the group payload and the rename hint;
- the synthetic membership entity and the reconciler's search;
- the order of calls when a new user joins its groups;
- which lookup failures are swallowed and which are wrapped.

Module `Scenarios` works through concrete or generic events against a cooperative remote side.

Exceptions are values of `ScimTypes.Fault`:

- `IdentityProvisioningException(message, cause)` is the connector's own exception.
- `ClientFault(call)` is a failure of a provisioning-client call.
- `SearchFault(call)` is an unchecked failure of the group lookup.

The constants the connector takes from other classes are stand-in strings. This covers the
property names, provider-map keys, claim URIs and side-channel keys, which are defined in
other classes of the connector's library. The proofs depend only on the constants being pairwise distinct.
The messages, the `"true"`/`"1"` literals, the new-group claim URI and the lookup's query
string are the connector's own literals.

The group lookup sends the fixed query `filter=displayName%20Eq%20abc`, whichever group is
being looked up. The field `GROUP_FILTER` (line 59) is never used. The model reproduces
this as written; `TranslationProperties.ReconcileStepTrace` states it.

The reconciler looks up a group id and attaches it to the membership entity (lines 437-448).
`updateGroup` never reads that identifier, so the looked-up id reaches no outbound call: the
update is the same whatever id is attached, or none. The model keeps this as written;
`TranslationProperties.UpdateGroupIgnoresIdentifier` states it.

Only `IOException`, `BadRequestException` and `CharonException` raised by the lookup are
caught. Any other failure propagates, and `createUser` then wraps it.

## Model

All source paths are relative to
`components/org.wso2.carbon.identity.provisioning.connector.scim/src/main/java/org/wso2/carbon/identity/provisioning/connector/scim/`
in the repository; in the table they are written out in full.

Each `Connector.ScimProvisioningConnector` method row also stands for the specification
function its `ensures` equates the method with: `Translation.Provision`, `Translation.Dispatch`,
`Translation.CreateUserStep`, `Translation.UpdateUserStep`, `Translation.DeleteUserStep`,
`Translation.CreateGroupStep`, `Translation.DeleteGroupStep`, `Translation.UpdateGroupStep`,
`Translation.ReconcileStep`, `Translation.WithPassword`, `ProviderConfig.Populate`,
`ProviderConfig.Absorb`, `ProviderConfig.Ingest` and `ProviderConfig.InitSettings`. The rows
of `TranslationProperties` and `ProviderConfig` state the properties of those functions.

| member | source | states |
|---|---|---|
| ProviderConfig.PopulatePrecedence | components/org.wso2.carbon.identity.provisioning.connector.scim/src/main/java/org/wso2/carbon/identity/provisioning/connector/scim/SCIMProvisioningConnector.java:473-481 | a non-null, non-empty value is stored under the key; otherwise a non-null default is stored; otherwise the map is unchanged |
| ProviderConfig.AbsorbAtKey | components/org.wso2.carbon.identity.provisioning.connector.scim/src/main/java/org/wso2/carbon/identity/provisioning/connector/scim/SCIMProvisioningConnector.java:67-89 | one loop iteration of `init` either writes key k with what `populateSCIMProvider` stores, or leaves k's presence and value unchanged |
| ProviderConfig.IngestKeyPresent | components/org.wso2.carbon.identity.provisioning.connector.scim/src/main/java/org/wso2/carbon/identity/provisioning/connector/scim/SCIMProvisioningConnector.java:67-84 | after the loop, a key is present exactly when it was present before or some property writes it |
| ProviderConfig.IngestKeyLastWriter | components/org.wso2.carbon.identity.provisioning.connector.scim/src/main/java/org/wso2/carbon/identity/provisioning/connector/scim/SCIMProvisioningConnector.java:67-84 | after the loop, a key holds what the last property writing it stored (later properties override earlier ones) |
| ProviderConfig.IngestKeyUnchanged | components/org.wso2.carbon.identity.provisioning.connector.scim/src/main/java/org/wso2/carbon/identity/provisioning/connector/scim/SCIMProvisioningConnector.java:67-84 | a key that no property writes keeps its earlier value |
| ProviderConfig.IngestConfig | components/org.wso2.carbon.identity.provisioning.connector.scim/src/main/java/org/wso2/carbon/identity/provisioning/connector/scim/SCIMProvisioningConnector.java:62-92 | the three facts above together: presence iff written, last writer wins, untouched keys kept |
| ProviderConfig.IngestDomain | components/org.wso2.carbon.identity.provisioning.connector.scim/src/main/java/org/wso2/carbon/identity/provisioning/connector/scim/SCIMProvisioningConnector.java:77-79 | the domain is taken from the last user-store-domain property: its value whenever non-null (even empty), else its default; without such a property it is unchanged |
| ProviderConfig.IngestJit | components/org.wso2.carbon.identity.provisioning.connector.scim/src/main/java/org/wso2/carbon/identity/provisioning/connector/scim/SCIMProvisioningConnector.java:86-89 | the JIT flag ends up set iff it was set before or some property is the JIT property with value exactly "1"; the loop never clears it |
| ProviderConfig.InitProperties | components/org.wso2.carbon.identity.provisioning.connector.scim/src/main/java/org/wso2/carbon/identity/provisioning/connector/scim/SCIMProvisioningConnector.java:62-92 | `init` builds the provider map from empty; a null or empty property list leaves only the empty map; the map's keys are exactly those some property writes; the JIT flag is never cleared and is set only by a "1" |
| Claims.FirstOf | components/org.wso2.carbon.identity.provisioning.connector.scim/src/main/java/org/wso2/carbon/identity/provisioning/connector/scim/SCIMProvisioningConnector.java:148-153 | the chosen name is null exactly when the list is empty, and is otherwise the list's first element |
| Translation.Members | components/org.wso2.carbon.identity.provisioning.connector.scim/src/main/java/org/wso2/carbon/identity/provisioning/connector/scim/SCIMProvisioningConnector.java:276-285 | one member per username, in list order, the i-th being exactly {display: i-th username} |
| Translation.KeepLast | components/org.wso2.carbon.identity.provisioning.connector.scim/src/main/java/org/wso2/carbon/identity/provisioning/connector/scim/SCIMProvisioningConnector.java:437-441 | the loop over the returned groups leaves the id of the last group, or null when none is returned |
| TranslationProperties.ProvisionGuards | components/org.wso2.carbon.identity.provisioning.connector.scim/src/main/java/org/wso2/carbon/identity/provisioning/connector/scim/SCIMProvisioningConnector.java:98-135 | a null entity, and a JIT entity while the JIT flag is off, issue no call and return null; every successful path of provision returns null |
| TranslationProperties.ReconcileAllExtends | components/org.wso2.carbon.identity.provisioning.connector.scim/src/main/java/org/wso2/carbon/identity/provisioning/connector/scim/SCIMProvisioningConnector.java:215-223 | the reconciliations after a user create only add calls after the earlier ones |
| TranslationProperties.CreateUserStepExtends | components/org.wso2.carbon.identity.provisioning.connector.scim/src/main/java/org/wso2/carbon/identity/provisioning/connector/scim/SCIMProvisioningConnector.java:206-223 | createUser's first call is always the user create, with the mapped user, and nothing earlier is changed |
| TranslationProperties.DispatchStepFollowsTable | components/org.wso2.carbon.identity.provisioning.connector.scim/src/main/java/org/wso2/carbon/identity/provisioning/connector/scim/SCIMProvisioningConnector.java:105-132 | the first call the dispatch issues is the client operation and method code that `DispatchTable` assigns to the (entity type, operation) pair, carrying the payload that `DispatchPayload` assigns (the create, update or delete user object, or the delete or plain group object); an unsupported pair issues nothing and succeeds |
| TranslationProperties.DispatchFollowsTable | components/org.wso2.carbon.identity.provisioning.connector.scim/src/main/java/org/wso2/carbon/identity/provisioning/connector/scim/SCIMProvisioningConnector.java:105-135 | the same for provision itself: USER DELETE, POST, PUT and PATCH go to delete, create, update and patch user; GROUP DELETE and POST go to delete and create group, PUT and PATCH to update and patch group, each with its payload builder; anything else issues no call and returns null |
| TranslationProperties.FailuresAreWrapped | components/org.wso2.carbon.identity.provisioning.connector.scim/src/main/java/org/wso2/carbon/identity/provisioning/connector/scim/SCIMProvisioningConnector.java:179-181 | every failure of provision is one IdentityProvisioningException whose message is the one `FailureMessage` assigns to the pair (also at lines 225-227, 252-254, 290-292, 321-323 and 370-372); the update-user paths reuse the create-user message; unsupported pairs never fail |
| TranslationProperties.SingleCallOutcome | components/org.wso2.carbon.identity.provisioning.connector.scim/src/main/java/org/wso2/carbon/identity/provisioning/connector/scim/SCIMProvisioningConnector.java:143-182 | every supported pair other than a user POST issues exactly one client call and nothing after it; provision fails exactly when that call is rejected, with the pair's IdentityProvisioningException whose cause is the rejected call; a success returns null (also lines 234-255, 262-295, 301-324 and 330-373) |
| TranslationProperties.PasswordPrecedence | components/org.wso2.carbon.identity.provisioning.connector.scim/src/main/java/org/wso2/carbon/identity/provisioning/connector/scim/SCIMProvisioningConnector.java:492-498 | with password provisioning exactly "true" the password is the claim's, even when a default exists; otherwise a non-blank default is used; otherwise the user is unchanged; the username and source are never touched |
| TranslationProperties.BlankDefaultNeverSent | components/org.wso2.carbon.identity.provisioning.connector.scim/src/main/java/org/wso2/carbon/identity/provisioning/connector/scim/SCIMProvisioningConnector.java:495-497 | with provisioning not "true" and a blank default, the created and updated users carry no password |
| TranslationProperties.IdentifyingFields | components/org.wso2.carbon.identity.provisioning.connector.scim/src/main/java/org/wso2/carbon/identity/provisioning/connector/scim/SCIMProvisioningConnector.java:192-197 | the username of the create, update and delete payloads and the display name of the create, update and delete group payloads are the first name of the list, or null exactly when the list is empty (also lines 148-153, 237-242, 264-269, 304-309 and 333-338) |
| TranslationProperties.UserSources | components/org.wso2.carbon.identity.provisioning.connector.scim/src/main/java/org/wso2/carbon/identity/provisioning/connector/scim/SCIMProvisioningConnector.java:159-167 | updateUser builds a minimal user exactly when there are no single-valued claims, and the mapped user otherwise; createUser always maps the single-valued claims (lines 203-207); the delete payloads carry only the identifying field (lines 244-247 and 311-315) |
| TranslationProperties.GroupMembers | components/org.wso2.carbon.identity.provisioning.connector.scim/src/main/java/org/wso2/carbon/identity/provisioning/connector/scim/SCIMProvisioningConnector.java:344-353 | the group payload lists one `display` member per username, in list order, and nothing else |
| TranslationProperties.RenameHintExactly | components/org.wso2.carbon.identity.provisioning.connector.scim/src/main/java/org/wso2/carbon/identity/provisioning/connector/scim/SCIMProvisioningConnector.java:354-364 | side-channel information is attached iff the old group name is non-null and non-empty, and then has exactly the two keys: role name changed = true and old group name = that name |
| TranslationProperties.UpdateGroupCall | components/org.wso2.carbon.identity.provisioning.connector.scim/src/main/java/org/wso2/carbon/identity/provisioning/connector/scim/SCIMProvisioningConnector.java:340-369 | a group update issues exactly one call: PUT to update and PATCH to patch, with method code PUT, the group payload and the rename hint |
| TranslationProperties.MembershipEntityClaims | components/org.wso2.carbon.identity.provisioning.connector.scim/src/main/java/org/wso2/carbon/identity/provisioning/connector/scim/SCIMProvisioningConnector.java:383-410 | the synthetic GROUP/PUT entity has the group name as its only group name, the user as its only username and new user, no deleted users, and no old group name |
| TranslationProperties.MembershipUpdateIssued | components/org.wso2.carbon.identity.provisioning.connector.scim/src/main/java/org/wso2/carbon/identity/provisioning/connector/scim/SCIMProvisioningConnector.java:383-410 | the update of the synthetic membership entity, whatever identifier is attached, issues the single group update adding the user, with the update-group failure message (also lines 330-373) |
| TranslationProperties.ReconcileStepTrace | components/org.wso2.carbon.identity.provisioning.connector.scim/src/main/java/org/wso2/carbon/identity/provisioning/connector/scim/SCIMProvisioningConnector.java:412-459 | one reconciliation is the group lookup, whose query is the fixed "...abc" filter whatever the group, then on a listed answer the group update of the membership entity, to which the last id is attached although the update does not use it; the update adds exactly the user to the group; IO, bad-request and Charon failures end it with success after the lookup alone; any other lookup failure propagates |
| TranslationProperties.ReconcileUpdateAddsUser | components/org.wso2.carbon.identity.provisioning.connector.scim/src/main/java/org/wso2/carbon/identity/provisioning/connector/scim/SCIMProvisioningConnector.java:444-450 | after a listed lookup an accepted update passes after two calls, the second being the PUT group update naming the group, with the user as its only member and no rename hint (also lines 383-410) |
| TranslationProperties.UpdateGroupIgnoresIdentifier | components/org.wso2.carbon.identity.provisioning.connector.scim/src/main/java/org/wso2/carbon/identity/provisioning/connector/scim/SCIMProvisioningConnector.java:330-373 | the group update issued is the same whatever provisioned identifier the entity carries, so the id attached at lines 444-448 reaches no call |
| TranslationProperties.ReconcileAllSucceeds | components/org.wso2.carbon.identity.provisioning.connector.scim/src/main/java/org/wso2/carbon/identity/provisioning/connector/scim/SCIMProvisioningConnector.java:215-223 | when every call is accepted and every lookup lists groups, the run succeeds and issues, per group in order, the lookup followed by the update that adds the user |
| TranslationProperties.ReconcileAllSwallows | components/org.wso2.carbon.identity.provisioning.connector.scim/src/main/java/org/wso2/carbon/identity/provisioning/connector/scim/SCIMProvisioningConnector.java:451-459 | when every lookup fails with a caught exception, the run succeeds with one lookup per group and no update |
| TranslationProperties.ReconcileAllFailures | components/org.wso2.carbon.identity.provisioning.connector.scim/src/main/java/org/wso2/carbon/identity/provisioning/connector/scim/SCIMProvisioningConnector.java:412-459 | a run fails only with an unchecked lookup failure or with the update-group exception wrapping the rejected update of one of its groups |
| TranslationProperties.CreateUserThenJoinGroups | components/org.wso2.carbon.identity.provisioning.connector.scim/src/main/java/org/wso2/carbon/identity/provisioning/connector/scim/SCIMProvisioningConnector.java:212-223 | a user create with every call accepted returns null, and issues the user create first, then for each new-group value in enumeration order the lookup and the update adding the user |
| TranslationProperties.CreateUserJoinsOneGroup | components/org.wso2.carbon.identity.provisioning.connector.scim/src/main/java/org/wso2/carbon/identity/provisioning/connector/scim/SCIMProvisioningConnector.java:212-223 | a user create whose new-group claim lists one group, with the create, the lookup and the update accepted, passes after exactly the create, the lookup and the update adding the user (also lines 412-448) |
| TranslationProperties.LookupFailureIsolated | components/org.wso2.carbon.identity.provisioning.connector.scim/src/main/java/org/wso2/carbon/identity/provisioning/connector/scim/SCIMProvisioningConnector.java:451-459 | when the lookups fail only in the caught ways, an accepted user create still completes with null, followed only by one lookup per new group |
| TranslationProperties.CreateUserFailures | components/org.wso2.carbon.identity.provisioning.connector.scim/src/main/java/org/wso2/carbon/identity/provisioning/connector/scim/SCIMProvisioningConnector.java:225-227 | a failed createUser throws one IdentityProvisioningException "Error while creating the user" whose cause is the rejected create, an unchecked lookup failure, or the nested update-group exception for one of the new groups |
| TranslationProperties.CreateUserRejected | components/org.wso2.carbon.identity.provisioning.connector.scim/src/main/java/org/wso2/carbon/identity/provisioning/connector/scim/SCIMProvisioningConnector.java:212-226 | a rejected user create makes provision throw at once: the create-user exception wrapping the rejected create, with no lookup after it (the throw at line 214 skips the loop at lines 215-223) |
| TranslationProperties.ReconcileAllStopsAt | components/org.wso2.carbon.identity.provisioning.connector.scim/src/main/java/org/wso2/carbon/identity/provisioning/connector/scim/SCIMProvisioningConnector.java:215-223 | when the groups before index i pass and the reconciliation of group i fails, the whole run ends with that failure: no later group is reconciled (every throw of updateGroupsOfUser leaves both loops) |
| TranslationProperties.CreateUserGroupFailure | components/org.wso2.carbon.identity.provisioning.connector.scim/src/main/java/org/wso2/carbon/identity/provisioning/connector/scim/SCIMProvisioningConnector.java:215-226 | after an accepted create and passing earlier groups, an unchecked lookup failure for the next group, or a rejected membership update, is not swallowed: provision throws the create-user exception with the failure as its cause (a SearchFault, or the nested update-group exception), and the failing call is the last in the trace (also lines 444-459) |
| Connector.ScimProvisioningConnector.Init | components/org.wso2.carbon.identity.provisioning.connector.scim/src/main/java/org/wso2/carbon/identity/provisioning/connector/scim/SCIMProvisioningConnector.java:62-92 | the loop leaves the provider map, the domain and the JIT flag as given by `InitSettings` on the earlier state |
| Connector.ScimProvisioningConnector.PopulateScimProvider | components/org.wso2.carbon.identity.provisioning.connector.scim/src/main/java/org/wso2/carbon/identity/provisioning/connector/scim/SCIMProvisioningConnector.java:473-481 | the provider map becomes `Populate` of the old map, and nothing else changes |
| Connector.ScimProvisioningConnector.GetUserStoreDomainName | components/org.wso2.carbon.identity.provisioning.connector.scim/src/main/java/org/wso2/carbon/identity/provisioning/connector/scim/SCIMProvisioningConnector.java:463-466 | returns the domain field as last written by init |
| Connector.ScimProvisioningConnector.Provision | components/org.wso2.carbon.identity.provisioning.connector.scim/src/main/java/org/wso2/carbon/identity/provisioning/connector/scim/SCIMProvisioningConnector.java:94-137 | the result and new trace are those of `Translation.Provision` on the current settings and the old trace |
| Connector.ScimProvisioningConnector.FirstName | components/org.wso2.carbon.identity.provisioning.connector.scim/src/main/java/org/wso2/carbon/identity/provisioning/connector/scim/SCIMProvisioningConnector.java:148-153 | the name picked is the list's first element, or null for an empty list |
| Connector.ScimProvisioningConnector.SetUserPassword | components/org.wso2.carbon.identity.provisioning.connector.scim/src/main/java/org/wso2/carbon/identity/provisioning/connector/scim/SCIMProvisioningConnector.java:492-498 | the user after the password policy is the one `WithPassword` gives |
| Connector.ScimProvisioningConnector.UpdateUser | components/org.wso2.carbon.identity.provisioning.connector.scim/src/main/java/org/wso2/carbon/identity/provisioning/connector/scim/SCIMProvisioningConnector.java:143-182 | outcome and trace are those of `UpdateUserStep` |
| Connector.ScimProvisioningConnector.CreateUser | components/org.wso2.carbon.identity.provisioning.connector.scim/src/main/java/org/wso2/carbon/identity/provisioning/connector/scim/SCIMProvisioningConnector.java:188-228 | outcome and trace are those of `CreateUserStep`: the create, then the reconciliations, with any failure wrapped |
| Connector.ScimProvisioningConnector.JoinNewGroups | components/org.wso2.carbon.identity.provisioning.connector.scim/src/main/java/org/wso2/carbon/identity/provisioning/connector/scim/SCIMProvisioningConnector.java:215-223 | the nested loop over claim entries and their values equals `ReconcileAll` over all new-group values in order, stopping at the first failure |
| Connector.ScimProvisioningConnector.JoinGroups | components/org.wso2.carbon.identity.provisioning.connector.scim/src/main/java/org/wso2/carbon/identity/provisioning/connector/scim/SCIMProvisioningConnector.java:219-221 | the inner loop over one entry's values equals `ReconcileAll` over those values |
| Connector.ScimProvisioningConnector.DeleteUser | components/org.wso2.carbon.identity.provisioning.connector.scim/src/main/java/org/wso2/carbon/identity/provisioning/connector/scim/SCIMProvisioningConnector.java:234-255 | outcome and trace are those of `DeleteUserStep` |
| Connector.ScimProvisioningConnector.AddMembers | components/org.wso2.carbon.identity.provisioning.connector.scim/src/main/java/org/wso2/carbon/identity/provisioning/connector/scim/SCIMProvisioningConnector.java:276-285 | the member loop appends exactly `Members(userList)` to the group's members and changes nothing else |
| Connector.ScimProvisioningConnector.CreateGroup | components/org.wso2.carbon.identity.provisioning.connector.scim/src/main/java/org/wso2/carbon/identity/provisioning/connector/scim/SCIMProvisioningConnector.java:262-295 | outcome and trace are those of `CreateGroupStep` |
| Connector.ScimProvisioningConnector.DeleteGroup | components/org.wso2.carbon.identity.provisioning.connector.scim/src/main/java/org/wso2/carbon/identity/provisioning/connector/scim/SCIMProvisioningConnector.java:301-324 | outcome and trace are those of `DeleteGroupStep` |
| Connector.ScimProvisioningConnector.UpdateGroup | components/org.wso2.carbon.identity.provisioning.connector.scim/src/main/java/org/wso2/carbon/identity/provisioning/connector/scim/SCIMProvisioningConnector.java:330-373 | outcome and trace are those of `UpdateGroupStep` |
| Connector.ScimProvisioningConnector.UpdateGroupsOfUser | components/org.wso2.carbon.identity.provisioning.connector.scim/src/main/java/org/wso2/carbon/identity/provisioning/connector/scim/SCIMProvisioningConnector.java:381-461 | outcome and trace are those of `ReconcileStep`, including the loop that keeps the last group id |
| Scenarios.SignUpJoinsOneGroup | components/org.wso2.carbon.identity.provisioning.connector.scim/src/main/java/org/wso2/carbon/identity/provisioning/connector/scim/SCIMProvisioningConnector.java:188-228 | any user sign-up (not JIT) whose new-group claim lists one group, with every call accepted and every lookup answered, and whatever the JIT setting: provision returns null after exactly three calls — the user create carrying the username, the lookup, and the membership update of that group |
| Scenarios.AliceJoinsEngineering | components/org.wso2.carbon.identity.provisioning.connector.scim/src/main/java/org/wso2/carbon/identity/provisioning/connector/scim/SCIMProvisioningConnector.java:188-228 | "alice" signing up with the new group "engineering" against a cooperative remote side: provision returns null after the create carrying "alice", the lookup, and the update adding her to "engineering" |
| Scenarios.DeleteEngineering | components/org.wso2.carbon.identity.provisioning.connector.scim/src/main/java/org/wso2/carbon/identity/provisioning/connector/scim/SCIMProvisioningConnector.java:301-324 | deleting group "engineering" issues exactly one delete call with display name "engineering" and no members, and returns null |
| Scenarios.RenameEngineering | components/org.wso2.carbon.identity.provisioning.connector.scim/src/main/java/org/wso2/carbon/identity/provisioning/connector/scim/SCIMProvisioningConnector.java:354-369 | renaming "engineering" to "eng" sends the rename hint with the old name; the same update without an old name sends none |

## Left out

- HTTP execution of the lookup, the basic-auth header and reading the response body (lines 420-435) are network and library calls. They are the environment's `search` answer; the request sent is recorded in the trace.
- `ProvisioningClient` and its `provision*` operations, `AttributeMapper.constructSCIMObjectFromAttributes` and `SCIMClient.decodeSCIMResponseWithListedResource` are foreign code that is not part of this model. A client call is an appended `Remote` trace entry whose success the environment decides. The mapper's result is the `Mapped(claims)` source. The decoder's result is the `Listed` group ids or the failure.
- The inherited helpers `getUserNames`, `getGroupNames`, `getSingleValuedClaims`, `getPassword` and `ProvisioningUtil.getAttributeValue` are not part of this model. `Claims` gives stand-ins: the values of the first entry with the claim URI, and the single-valued entries. Anything else those helpers do, such as domain prefixing, is not modelled.
- `Group.setMember` is taken to append one member, as Charon's implementation is not part of this model.
- Null inputs inside the event and the property list are not modelled. The model has no null username (a null list element) and no null entity name. It also has no null element of `provisioningProperties`; that throws a `NullPointerException` at line 69, which escapes `init`. It has no null attribute map or claim-value list (lines 215-219) and no null local claim (line 216); in `createUser` the resulting `NullPointerException` is caught by `catch (Exception e)` and wrapped.
- `setPassword(null)` from a missing password claim is not told apart from a password never set; both are `None`.
- Failures of the attribute mapper, of `setUserName`, `setPassword` and `setDisplayName`, of the `GetMethod` constructor and of the base64 encoder are not modelled. Only the client calls and the lookup can fail.
- Logging, `serialVersionUID`, `getClaimDialectUri` and `isEnabled` (both return constants), and the commented-out domain code (lines 402-406) are left out.
- The `scimObject` field (line 57) is never read or written by the connector and is left out.
- A connector used before `init` is not modelled. In the source `scimProvider` is null until `init` runs (lines 56 and 63). `createUser` and `updateUser` would then fail at line 493 of `setUserPassword`, called at lines 210 and 170. That `NullPointerException` is thrown inside their `try`, so it would be wrapped at lines 225-226 and 179-180. `deleteUser`, `createGroup`, `deleteGroup` and `updateGroup` would hand the null provider to the provisioning client (lines 248, 287, 317, 358 and 363), whose behaviour is not part of this model. The model's constructor starts with an empty provider map instead.
- Concurrency, including the lost update between two reconciliations of the same group, concerns the remote store. Each event is modelled as running alone.
- The claim map is a Java `HashMap`. Its enumeration order is modelled as the order of the `attributes` sequence; the hash order itself is not modelled.
