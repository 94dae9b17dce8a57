/** End-to-end scenarios: concrete or generic events and the exact calls they produce. */
module Scenarios {
  import opened Wrappers
  import opened ScimTypes
  import opened Claims
  import opened ProviderConfig
  import opened Translation
  import opened TranslationProperties

  /** A remote side that accepts every call and lists one group for every lookup. */
  function Cooperative(groupId: string): (env: Env)
    ensures forall h, c :: env.accepts(h, c)
    ensures forall h, c :: env.search(h, c) == Listed([Some(groupId)])
  {
    Env((h: seq<Call>, c: Call) => true, (h: seq<Call>, c: Call) => Listed([Some(groupId)]))
  }

  /** The sign-up of `user` that carries the single new group `group`. */
  function SignUp(user: string, group: string): (e: Entity)
    ensures e.entityType == UserEntity && e.operation == Post && !e.jitProvisioning && e.entityName == user
    ensures UserNames(e.attributes) == [user] && NewGroupValues(e.attributes) == [group]
  {
    var attrs := [Attribute(USERNAME_CLAIM_URI, [user]), Attribute(NEW_GROUP_CLAIM_URI, [group])];
    assert USERNAME_CLAIM_URI != NEW_GROUP_CLAIM_URI;
    assert attrs[..1][..0] == [] && attrs[..1] == [attrs[0]];
    assert NewGroupValues(attrs[..1]) == NewGroupValues([]) + [];
    assert NewGroupValues(attrs) == NewGroupValues(attrs[..1]) + [group];
    Entity(UserEntity, user, Post, attrs, None, false)
  }

  /** Signing up a user whose new-group claim lists one group (such as `SignUp(user, group)`)
      against a remote side that accepts every call and answers every lookup (such as
      `Cooperative`): exactly three calls, the user create carrying the username, the group
      lookup, and the group update whose only member is the user (`ReconcileUpdateAddsUser` spells it out). */
  lemma SignUpJoinsOneGroup(s: Settings, e: Entity, group: string, env: Env)
    requires e.entityType == UserEntity && e.operation == Post && !e.jitProvisioning
    requires UserNames(e.attributes) == [e.entityName] && NewGroupValues(e.attributes) == [group]
    requires forall h, c :: env.accepts(h, c)
    requires forall h, c :: env.search(h, c).Listed?
    ensures CreateUserObject(s.config, e.attributes).userName == Some(e.entityName)
    ensures Provision(s, Some(e), env, []) == Provisioned(Success(None),
      [ Remote(ProvisionCreateUser, CreateUserObject(s.config, e.attributes), HttpPost, None),
        GroupSearch(s.config),
        MembershipUpdate(group, e.entityName) ])
  {
    assert CreateUserObject(s.config, e.attributes).userName == Some(e.entityName) by {
      IdentifyingFields(s.config, e.attributes);
    }
    var call := Remote(ProvisionCreateUser, CreateUserObject(s.config, e.attributes), HttpPost, None);
    CreateUserJoinsOneGroup(s, e, group, env, []);
    assert Dispatch(s, e, env, []) == CreateUserStep(s, e, env, []);
    var tr := [call, GroupSearch(s.config), MembershipUpdate(group, e.entityName)];
    assert [] + tr == tr;
  }

  /** The end-to-end example: "alice" signs up with the new group "engineering" against
      `Cooperative`; the requirements of `SignUpJoinsOneGroup` are met, so provision returns
      null after the create carrying "alice", the lookup and the update adding her. */
  lemma AliceJoinsEngineering(s: Settings)
    ensures var e := SignUp("alice", "engineering");
      && CreateUserObject(s.config, e.attributes).userName == Some("alice")
      && Provision(s, Some(e), Cooperative("g-1"), []) == Provisioned(Success(None),
           [ Remote(ProvisionCreateUser, CreateUserObject(s.config, e.attributes), HttpPost, None),
             GroupSearch(s.config),
             MembershipUpdate("engineering", "alice") ])
  {
    SignUpJoinsOneGroup(s, SignUp("alice", "engineering"), "engineering", Cooperative("g-1"));
  }

  /** Deleting group "engineering": exactly one delete call carrying the display name and no
      members. */
  lemma DeleteEngineering(s: Settings)
    ensures var attrs := [Attribute(GROUP_CLAIM_URI, ["engineering"])];
      Provision(s, Some(Entity(GroupEntity, "engineering", Delete, attrs, None, false)), Cooperative("g-1"), [])
        == Provisioned(Success(None), [Remote(ProvisionDeleteGroup, ScimGroup(Some("engineering"), []), HttpDelete, None)])
  {
  }

  /** Renaming "engineering" to "eng" attaches the rename hint; the same update without an old
      group name attaches none. */
  lemma RenameEngineering(s: Settings)
    ensures var attrs := [Attribute(GROUP_CLAIM_URI, ["eng"]), Attribute(OLD_GROUP_NAME_CLAIM_URI, ["engineering"])];
      Provision(s, Some(Entity(GroupEntity, "eng", Put, attrs, None, false)), Cooperative("g-1"), []).trace
        == [Remote(ProvisionUpdateGroup, ScimGroup(Some("eng"), []), HttpPut,
              Some(map[IS_ROLE_NAME_CHANGED_ON_UPDATE := Flag(true), OLD_GROUP_NAME := Text("engineering")]))]
    ensures var attrs := [Attribute(GROUP_CLAIM_URI, ["eng"])];
      Provision(s, Some(Entity(GroupEntity, "eng", Put, attrs, None, false)), Cooperative("g-1"), []).trace
        == [Remote(ProvisionUpdateGroup, ScimGroup(Some("eng"), []), HttpPut, None)]
  {
    var attrs := [Attribute(GROUP_CLAIM_URI, ["eng"]), Attribute(OLD_GROUP_NAME_CLAIM_URI, ["engineering"])];
    assert GROUP_CLAIM_URI != OLD_GROUP_NAME_CLAIM_URI && GROUP_CLAIM_URI != USERNAME_CLAIM_URI;
    assert OLD_GROUP_NAME_CLAIM_URI != USERNAME_CLAIM_URI;
    assert ClaimValues(attrs, OLD_GROUP_NAME_CLAIM_URI) == ["engineering"];
    assert ClaimValues(attrs, USERNAME_CLAIM_URI) == ClaimValues(attrs[1..], USERNAME_CLAIM_URI);
    assert attrs[1..][1..] == [];
    assert ClaimValues([Attribute(GROUP_CLAIM_URI, ["eng"])], OLD_GROUP_NAME_CLAIM_URI) == [];
  }
}
